/** What every run of the ownership protocol satisfies. */
module ConnectionTheorems {
  import opened Prelude
  import opened ConnectionRegistry
  import opened ConnectionProtocol
  import opened ConnectionInvariant
  import opened ConnectionSteps
  import opened ConnectionSupervision

  lemma ReserverKeeps(s: State, a: Action)
    requires Inv(s) && Enabled(s, a)
    requires OfReserver(a)
    ensures Inv(Apply(s, a))
  {
    match a
    case Acquire(r) => EnterStep(s, r);
    case GiveUp(r) => LeaveStep(s, r, 0);
    case CheckAccepting(r) =>
      if s.reg.accepting {
        SeenLinked(s.requests, r, s.reg.nextId, s.upgrades.Keys);
        MoveStep(s, r, SawAccepting, s.requests.lock);
      } else {
        LeaveStep(s, r, 0);
      }
    case IssueId(r) => IssueStep(s, r);
    case LockAndRecheck(r) =>
      if s.reg.accepting { LockGranted(s, r); } else { LeaveStep(s, r, 1); }
    case InsertEntry(r) => InsertStep(s, r);
  }

  lemma HandleKeeps(s: State, e: Event)
    requires Inv(s) && s.desk.pc == Handling(e)
    ensures Inv(HandleEvent(s, e))
  {
    match e
    case Activate(id) =>
      assert HandleEvent(s, e) == HandleActivate(s, id);
      ActivateStep(s, id);
    case CallbackCompleted(id, outcome) =>
      assert HandleEvent(s, e) == Decided(s, id, s.reg.ObserveCallback(id, outcome), false);
      CallbackStep(s, id, outcome);
    case UpgradeCompleted(id, outcome) =>
      assert HandleEvent(s, e) == Decided(s, id, s.reg.ObserveTerminal(id, outcome), true);
      TerminalStep(s, id, outcome);
    case Stop(abort) =>
      assert HandleEvent(s, e) == HandleStop(s, abort);
      StopStep(s, abort);
  }

  lemma SupervisorKeeps(s: State, a: Action)
    requires Inv(s) && Enabled(s, a)
    requires OfSupervisor(a)
    ensures Inv(Apply(s, a))
  {
    match a
    case Receive => TakeStep(s);
    case Handle => HandleKeeps(s, s.desk.pc.event);
    case EndTask(t, outcome) => EndStep(s, t, outcome);
    case Join(t) => JoinStep(s, t);
    case ObserveJoined => JoinedStep(s, s.desk.pc.id, s.desk.pc.panicked);
    case Return => ReturnStep(s);
  }

  lemma ClosingKeeps(s: State, a: Action)
    requires Inv(s) && Enabled(s, a) && OfEveryEntry(a)
    ensures Inv(Apply(s, a))
  {
    match a
    case CloseWebsockets => EveryEntryStep(s, s.reg.BeginClosing(), s.desk);
    case CloseAll =>
      EveryEntryStep(s, s.reg.BeginClosing(), s.desk.(sealed := true, pc := if s.desk.pc.abort then CancellingAll else Looping));
    case CancelAll => EveryEntryStep(s, s.reg.CancelOwned(), s.desk.(pc := Looping));
  }

  predicate OfReserver(a: Action) {
    a.Acquire? || a.GiveUp? || a.CheckAccepting? || a.IssueId? || a.LockAndRecheck? || a.InsertEntry?
  }

  predicate OfSupervisor(a: Action) {
    a.Receive? || a.Handle? || a.EndTask? || a.Join? || a.ObserveJoined? || a.Return?
  }

  predicate OfEveryEntry(a: Action) {
    a.CloseWebsockets? || a.CloseAll? || a.CancelAll?
  }

  lemma OtherKeeps(s: State, a: Action)
    requires Inv(s) && Enabled(s, a) && (a.StopAccepting? || a.SendStop? || a.Operate?)
    ensures Inv(Apply(s, a))
  {
    match a
    case StopAccepting => StopAcceptingStep(s);
    case SendStop(abort) => SendStopStep(s, abort);
    case Operate(id, op) => OperateStep(s, id, op);
  }

  /** Every enabled action keeps the invariant. */
  lemma StepKeeps(s: State, a: Action)
    requires Inv(s) && Enabled(s, a)
    ensures Inv(Apply(s, a))
  {
    if OfReserver(a) {
      ReserverKeeps(s, a);
    } else if OfSupervisor(a) {
      SupervisorKeeps(s, a);
    } else if OfEveryEntry(a) {
      ClosingKeeps(s, a);
    } else {
      OtherKeeps(s, a);
    }
  }

  lemma {:induction false} RunKeeps(s: State, run: seq<Action>)
    requires Inv(s) && Valid(s, run)
    ensures Inv(Final(s, run))
    decreases |run|
  {
    if run != [] {
      StepKeeps(s, run[0]);
      RunKeeps(Apply(s, run[0]), run[1..]);
    }
  }

  /**
   * No interleaving reaches the supervisor's shared-failure branch, refuses an activation, finds
   * the permit slot empty when an activation needs it, or breaks an assertion of the registry.
   */
  lemma NoSharedFailure(run: seq<Action>)
    requires Valid(INITIAL, run)
    ensures var log := Final(INITIAL, run).log; !log.failure && !log.refused && !log.permitMissing
  {
    InitialInv();
    RunKeeps(INITIAL, run);
  }

  /** An id is issued to one request only, and none that a request holds has ever been reserved. */
  lemma IssuedFresh(run: seq<Action>, r: nat, p: nat)
    requires Valid(INITIAL, run)
    requires var at := Final(INITIAL, run).requests.at; r in at && HasId(at[r]) && p in at && HasId(at[p])
    ensures var s := Final(INITIAL, run);
            && s.requests.at[r].id !in s.upgrades && s.requests.at[r].id !in s.reg.entries
            && (r != p ==> s.requests.at[r].id != s.requests.at[p].id)
  {
    InitialInv();
    RunKeeps(INITIAL, run);
  }

  predicate Once(v: View) {
    && v.consumed <= 1 && v.observed <= 1
    && v.removed == (if v.entry.Some? then 0 else 1)
    && (v.removed == 1 ==> v.consumed == 1)
    && (v.removed == 1 && v.u.stage == Activated ==> v.observed == 1)
    && (v.entry.Some? && v.entry.value.state != Finished <==> v.consumed == 0)
  }

  lemma PhaseOnce(v: View)
    requires Phase(v)
    ensures Once(v)
  {
  }

  /**
   * Every reservation completes at most once and is removed at most once, in that order; an activated
   * one is removed only after its callback has been observed too.
   */
  lemma ExactlyOnce(run: seq<Action>, id: Id)
    requires Valid(INITIAL, run) && id in Final(INITIAL, run).upgrades
    ensures var s := Final(INITIAL, run);
            && s.log.consumed[id] <= 1 && s.log.observed[id] <= 1
            && s.log.removed[id] == (if id in s.reg.entries then 0 else 1)
            && (s.log.removed[id] == 1 ==> s.log.consumed[id] == 1)
            && (s.log.removed[id] == 1 && s.upgrades[id].stage == Activated ==> s.log.observed[id] == 1)
            && (s.reg.Unfinished(id) <==> s.log.consumed[id] == 0)
  {
    InitialInv();
    RunKeeps(INITIAL, run);
    StateOnce(Final(INITIAL, run), id);
  }

  lemma StateOnce(s: State, id: Id)
    requires Phases(s) && id in s.upgrades
    ensures s.log.consumed[id] <= 1 && s.log.observed[id] <= 1 && s.log.removed[id] == (if id in s.reg.entries then 0 else 1)
    ensures s.log.removed[id] == 1 ==> s.log.consumed[id] == 1 && (s.upgrades[id].stage == Activated ==> s.log.observed[id] == 1)
    ensures s.reg.Unfinished(id) <==> s.log.consumed[id] == 0
  {
    PhaseOnce(ViewOf(s, id));
  }

  lemma HandlingReservesNothing(s: State, e: Event)
    ensures HandleEvent(s, e).upgrades == s.upgrades && HandleEvent(s, e).desk.sealed == s.desk.sealed
  {
  }

  lemma SealStays(s: State, a: Action)
    requires Enabled(s, a) && s.desk.sealed
    ensures Apply(s, a).desk.sealed
    ensures s.desk.pc.Returned? ==> Apply(s, a).desk.pc.Returned?
  {
    if a.Handle? {
      HandlingReservesNothing(s, s.desk.pc.event);
    }
  }

  lemma OnlyInsertionReserves(s: State, a: Action)
    requires Enabled(s, a) && !a.InsertEntry?
    ensures Apply(s, a).upgrades.Keys == s.upgrades.Keys
  {
  }

  /** Once admission is sealed, no action reserves another id. */
  lemma SealedKeeps(s: State, a: Action)
    requires Inv(s) && s.desk.sealed && Enabled(s, a)
    ensures Apply(s, a).desk.sealed && Apply(s, a).upgrades.Keys == s.upgrades.Keys
    ensures s.desk.pc.Returned? ==> Apply(s, a).desk.pc.Returned?
  {
    assert !a.InsertEntry?;
    OnlyInsertionReserves(s, a);
    SealStays(s, a);
  }

  lemma {:induction false} RunSealed(s: State, run: seq<Action>)
    requires Inv(s) && s.desk.sealed && Valid(s, run)
    ensures Final(s, run).upgrades.Keys == s.upgrades.Keys
    ensures s.desk.pc.Returned? ==> Final(s, run).desk.pc.Returned?
    decreases |run|
  {
    if run != [] {
      SealedKeeps(s, run[0]);
      StepKeeps(s, run[0]);
      RunSealed(Apply(s, run[0]), run[1..]);
    }
  }

  lemma {:induction false} RunConcat(s: State, run: seq<Action>, more: seq<Action>)
    requires Valid(s, run) && Valid(Final(s, run), more)
    ensures Valid(s, run + more) && Final(s, run + more) == Final(Final(s, run), more)
    decreases |run|
  {
    if run == [] {
      assert run + more == more;
    } else {
      assert (run + more)[1..] == run[1..] + more;
      RunConcat(Apply(s, run[0]), run[1..], more);
    }
  }

  predicate Quiet(s: State) {
    && s.reg.entries == map[] && s.desk.tasks == map[] && !s.reg.accepting
    && (forall e :: e in s.channel ==> e.Stop?)
    && (forall id :: id in s.upgrades ==> s.log.consumed[id] == s.log.removed[id] == 1)
  }

  /**
   * When the supervisor has returned, the registry is empty, only stop requests are left in the
   * channel and every reservation has completed and been removed exactly once; and whatever runs
   * afterwards, this stays so and no further reservation succeeds.
   */
  lemma Quiescence(run: seq<Action>, more: seq<Action>)
    requires Valid(INITIAL, run) && Final(INITIAL, run).desk.pc.Returned?
    requires Valid(Final(INITIAL, run), more)
    ensures var s, t := Final(INITIAL, run), Final(Final(INITIAL, run), more);
            Quiet(s) && Quiet(t) && t.upgrades.Keys == s.upgrades.Keys
  {
    InitialInv();
    RunKeeps(INITIAL, run);
    var s := Final(INITIAL, run);
    RunKeeps(s, more);
    RunSealed(s, more);
    ReturnedQuiet(s);
    ReturnedQuiet(Final(s, more));
  }

  lemma GoneView(v: View)
    requires Phase(v) && v.entry == None
    ensures v.events == [] && v.consumed == v.removed == 1
  {
  }

  lemma ReturnedQuiet(s: State)
    requires Inv(s) && s.desk.pc.Returned?
    ensures Quiet(s)
  {
    assert Queue(s.desk.pc, s.channel) == s.channel;
    forall id | id in s.upgrades ensures s.log.consumed[id] == s.log.removed[id] == 1 && EventsFor(s.channel, id) == [] {
      assert Phase(ViewOf(s, id));
      GoneView(ViewOf(s, id));
    }
    forall e | e in s.channel ensures e.Stop? {
      if !e.Stop? {
        EventsForMember(s.channel, e.id, e);
      }
    }
  }

  function UnfinishedIds(s: State): set<Id> {
    set id | id in s.reg.entries && s.reg.Unfinished(id)
  }

  /** Issued ids are burned, still held by a request, reserved and unfinished, or completed. */
  lemma Conservation(run: seq<Action>)
    requires Valid(INITIAL, run)
    ensures var s := Final(INITIAL, run);
            s.reg.nextId - 1 == s.requests.burned + |InFlight(s.requests.at)| + |UnfinishedIds(s)| + s.reg.completions
  {
    InitialInv();
    RunKeeps(INITIAL, run);
    var s := Final(INITIAL, run);
    UnfinishedOrConsumed(s);
    assert |s.upgrades.Keys| == |UnfinishedIds(s) + ConsumedIds(s.upgrades.Keys, s.log.consumed)|;
  }

  lemma UnfinishedOrConsumed(s: State)
    requires Phases(s) && s.reg.entries.Keys <= s.upgrades.Keys
    ensures s.upgrades.Keys == UnfinishedIds(s) + ConsumedIds(s.upgrades.Keys, s.log.consumed)
            && UnfinishedIds(s) !! ConsumedIds(s.upgrades.Keys, s.log.consumed)
  {
    forall id | id in s.upgrades ensures id in UnfinishedIds(s) <==> id !in s.log.consumed {
      PhaseOnce(ViewOf(s, id));
    }
  }

  function SlotIds(s: State): set<Id> {
    set id | id in s.upgrades && s.upgrades[id].slot
  }

  function CarriedIds(s: State): set<Id> {
    set id | id in s.upgrades && s.upgrades[id].callback == CarriesPermit
  }

  function ActivationIds(s: State): set<Id> {
    set e | e in Queue(s.desk.pc, s.channel) && e.Activate? :: e.id
  }

  function LiveIds(s: State): set<Id> {
    set t | t in s.desk.tasks && s.desk.tasks[t].running :: s.desk.tasks[t].id
  }

  predicate Disjoint4(a: set<Id>, b: set<Id>, c: set<Id>, d: set<Id>) {
    a !! b && a !! c && a !! d && b !! c && b !! d && c !! d
  }

  /** A permit is in one place only. */
  lemma HeldOnce(v: View)
    requires Phase(v)
    ensures v.u.slot ==> !v.u.callback.CarriesPermit? && !Activating(v) && v.live == {}
    ensures v.u.callback.CarriesPermit? ==> !Activating(v) && v.live == {}
    ensures Activating(v) ==> v.live == {}
    ensures forall e :: e in v.events && e.Activate? ==> Activating(v)
  {
  }

  predicate Activating(v: View) {
    v.events != [] && v.events[0].Activate?
  }

  lemma {:induction false} EventsForIds(q: seq<Event>, id: Id, e: Event)
    requires e in EventsFor(q, id)
    ensures e in q && !e.Stop? && e.id == id
  {
    if e !in (if !q[0].Stop? && q[0].id == id then [q[0]] else []) {
      EventsForIds(q[1..], id, e);
    }
  }

  /** Where the permit of one id is, said of the whole state. */
  lemma Whereabouts(s: State, id: Id)
    requires Inv(s) && id in s.upgrades
    ensures id in SlotIds(s) <==> s.upgrades[id].slot
    ensures id in ActivationIds(s) <==> Activating(ViewOf(s, id))
    ensures id in LiveIds(s) <==> ViewOf(s, id).live != {}
  {
    var v := ViewOf(s, id);
    HeldOnce(v);
    if Activating(v) {
      EventsForIds(Queue(s.desk.pc, s.channel), id, v.events[0]);
    }
    if e :| e in Queue(s.desk.pc, s.channel) && e.Activate? && e.id == id {
      EventsForMember(Queue(s.desk.pc, s.channel), id, e);
    }
    if t :| t in v.live {
      assert t in s.desk.tasks;
    }
    if t :| t in s.desk.tasks && s.desk.tasks[t].running && s.desk.tasks[t].id == id {
      assert t in v.live;
    }
  }

  lemma OnePlace(s: State, id: Id)
    requires Inv(s) && id in s.upgrades
    ensures Placed(id, Holders(s), SlotIds(s), CarriedIds(s), ActivationIds(s), LiveIds(s))
  {
    Whereabouts(s, id);
    assert Phase(ViewOf(s, id));
    HeldOnce(ViewOf(s, id));
  }

  lemma PlacesAreReserved(s: State)
    requires QueueLinked(Queue(s.desk.pc, s.channel), s.upgrades.Keys) && TasksLinked(s.desk, s.upgrades.Keys)
    ensures Holders(s) + SlotIds(s) + CarriedIds(s) + ActivationIds(s) + LiveIds(s) <= s.upgrades.Keys
  {
  }

  lemma HoldersAreSomewhere(s: State)
    requires Inv(s)
    ensures Disjoint4(SlotIds(s), CarriedIds(s), ActivationIds(s), LiveIds(s))
    ensures Holders(s) == SlotIds(s) + CarriedIds(s) + ActivationIds(s) + LiveIds(s)
  {
    PlacesAreReserved(s);
    forall id | id in s.upgrades.Keys
      ensures Placed(id, Holders(s), SlotIds(s), CarriedIds(s), ActivationIds(s), LiveIds(s))
    {
      OnePlace(s, id);
    }
    Partition(s.upgrades.Keys, Holders(s), SlotIds(s), CarriedIds(s), ActivationIds(s), LiveIds(s));
  }

  predicate Placed(id: Id, h: set<Id>, a: set<Id>, b: set<Id>, c: set<Id>, d: set<Id>) {
    && (id in h <==> id in a || id in b || id in c || id in d)
    && (id in a ==> id !in b && id !in c && id !in d)
    && (id in b ==> id !in c && id !in d)
    && (id in c ==> id !in d)
  }

  lemma Partition(ids: set<Id>, h: set<Id>, a: set<Id>, b: set<Id>, c: set<Id>, d: set<Id>)
    requires h + a + b + c + d <= ids
    requires forall id :: id in ids ==> Placed(id, h, a, b, c, d)
    ensures Disjoint4(a, b, c, d) && h == a + b + c + d
  {
  }

  /** No permit is lost or released twice: each is free, with a request, or in exactly one of four places. */
  lemma PermitLedger(run: seq<Action>)
    requires Valid(INITIAL, run)
    ensures var s := Final(INITIAL, run);
            && Disjoint4(SlotIds(s), CarriedIds(s), ActivationIds(s), LiveIds(s))
            && s.requests.available + |s.requests.at| + |SlotIds(s)| + |CarriedIds(s)| + |ActivationIds(s)| + |LiveIds(s)| == PERMITS
  {
    InitialInv();
    RunKeeps(INITIAL, run);
    var s := Final(INITIAL, run);
    HoldersAreSomewhere(s);
    Card4(SlotIds(s), CarriedIds(s), ActivationIds(s), LiveIds(s));
  }

  lemma Card4(a: set<Id>, b: set<Id>, c: set<Id>, d: set<Id>)
    requires Disjoint4(a, b, c, d)
    ensures |a + b + c + d| == |a| + |b| + |c| + |d|
  {
  }
}
