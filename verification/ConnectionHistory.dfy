/**
 * What the supervisor has been told, and what the registry shows of it: every event sent is handled
 * once and in order, and handled events, joined tasks and closing sections decide every entry,
 * counter and signal.
 */
module ConnectionHistory {
  import opened Prelude
  import opened ConnectionRegistry
  import opened ConnectionProtocol
  import opened ConnectionInvariant
  import opened ConnectionTheorems

  // ----- a run and its past -----

  lemma {:induction false} RunBack(s: State, run: seq<Action>)
    requires Valid(s, run) && run != []
    ensures var k := |run| - 1;
            && Valid(s, run[..k]) && Enabled(Final(s, run[..k]), run[k])
            && Final(s, run) == Apply(Final(s, run[..k]), run[k])
    decreases |run|
  {
    if |run| > 1 {
      var k := |run| - 1;
      RunBack(Apply(s, run[0]), run[1..]);
      assert run[..k][1..] == run[1..][..k - 1];
    }
  }

  /** A joined task as the supervisor observes it. */
  datatype Report = Report(id: Id, panicked: bool)

  /**
   * The events sent to the supervisor and handled by it, the joined tasks it observed, the
   * connections it closed after their activation, and how often its closing and cancelling sections ran.
   */
  datatype History = History(
    sent: seq<Event>,
    handled: seq<Event>,
    reports: seq<Report>,
    closed: set<Id>,
    closings: nat,
    cancels: nat)

  /** The event an action sends while the supervisor still receives. */
  function Says(s: State, a: Action): seq<Event>
    requires Enabled(s, a)
  {
    if s.desk.pc.Returned? then []
    else
      match a
      case SendStop(abort) => [Stop(abort)]
      case Operate(id, op) => Emitted(s.upgrades[id], id, op)
      case _ => []
  }

  /** The event the supervisor finishes with an action. */
  function Finishes(s: State, a: Action): seq<Event>
    requires Enabled(s, a)
  {
    if a.Handle? then [s.desk.pc.event] else []
  }

  function Activated(handled: seq<Event>): set<Id> {
    set e | e in handled && e.Activate? :: e.id
  }

  function Next(h: History, s: State, a: Action): History
    requires Enabled(s, a)
  {
    History(h.sent + Says(s, a),
            h.handled + Finishes(s, a),
            h.reports + (if a.ObserveJoined? then [Report(s.desk.pc.id, s.desk.pc.panicked)] else []),
            if a.CloseAll? || a.CloseWebsockets? then Activated(h.handled) else h.closed,
            h.closings + (if a.CloseAll? then 1 else 0),
            h.cancels + (if a.CancelAll? then 1 else 0))
  }

  const NOTHING := History([], [], [], {}, 0, 0)

  function Past(run: seq<Action>): History
    requires Valid(INITIAL, run)
    decreases |run|
  {
    if run == [] then NOTHING
    else
      var k := |run| - 1;
      RunBack(INITIAL, run);
      Next(Past(run[..k]), Final(INITIAL, run[..k]), run[k])
  }

  // ----- events are handled once and in order -----

  lemma HandledQueue(s: State, e: Event)
    ensures HandleEvent(s, e).channel == s.channel && !HandleEvent(s, e).desk.pc.Handling?
  {
  }

  lemma SendQueue(s: State, events: seq<Event>)
    ensures var t := Send(s, events);
            t.desk.pc == s.desk.pc && t.channel == s.channel + if s.desk.pc.Returned? then [] else events
  {
  }

  /** Actions that neither send nor handle move at most one event from the channel to the supervisor's hands. */
  lemma QuietQueue(s: State, a: Action)
    requires Enabled(s, a) && !a.Handle? && !a.Operate? && !a.SendStop?
    ensures Queue(Apply(s, a).desk.pc, Apply(s, a).channel) == Queue(s.desk.pc, s.channel)
  {
  }

  lemma QueueStep(s: State, a: Action)
    requires Enabled(s, a)
    ensures Queue(s.desk.pc, s.channel) + Says(s, a) == Finishes(s, a) + Queue(Apply(s, a).desk.pc, Apply(s, a).channel)
  {
    if a.Handle? {
      HandledQueue(s, s.desk.pc.event);
    } else if a.Operate? || a.SendStop? {
      SendQueue(s, Says(s, a));
    } else {
      QuietQueue(s, a);
    }
  }

  lemma InOrderNext(sent: seq<Event>, handled: seq<Event>, queue: seq<Event>, says: seq<Event>, done: seq<Event>,
                    next: seq<Event>)
    requires sent == handled + queue && queue + says == done + next
    ensures sent + says == handled + done + next
  {
    Associates(handled, queue, says);
    Associates(handled, done, next);
  }

  /** Every event sent before the supervisor returned was handled, in order and once, or is still queued. */
  lemma {:induction false} HandledInOrder(run: seq<Action>)
    requires Valid(INITIAL, run)
    ensures var s, h := Final(INITIAL, run), Past(run);
            h.sent == h.handled + Queue(s.desk.pc, s.channel)
    decreases |run|
  {
    if run != [] {
      var k := |run| - 1;
      RunBack(INITIAL, run);
      HandledInOrder(run[..k]);
      var s, h := Final(INITIAL, run[..k]), Past(run[..k]);
      QueueStep(s, run[k]);
      InOrderNext(h.sent, h.handled, Queue(s.desk.pc, s.channel), Says(s, run[k]), Finishes(s, run[k]),
                  Queue(Apply(s, run[k]).desk.pc, Apply(s, run[k]).channel));
    }
  }

  // ----- what an entry shows -----

  predicate Called(handled: seq<Event>, id: Id) {
    exists e :: e in handled && e.CallbackCompleted? && e.id == id
  }

  predicate Ended(handled: seq<Event>, id: Id) {
    exists e :: e in handled && e.UpgradeCompleted? && e.id == id
  }

  predicate Reported(reports: seq<Report>, id: Id) {
    exists r :: r in reports && r.id == id
  }

  /** The state of an entry that is still registered. */
  function StateTold(h: History, id: Id): OwnershipState {
    if Activate(id) !in h.handled then PendingUpgrade
    else if Reported(h.reports, id) then Finished
    else if id in h.closed then Closing
    else Active
  }

  /** An entry is registered, in its state and signalled exactly as what was handled, joined and closed says. */
  predicate Shows(entry: Option<Ownership>, reserved: bool, h: History, id: Id) {
    && (entry.Some? <==>
        reserved && !Ended(h.handled, id) && !(Called(h.handled, id) && Reported(h.reports, id)))
    && (entry.Some? ==> entry.value == Ownership(StateTold(h, id), Called(h.handled, id), h.cancels > 0))
    && (Called(h.handled, id) || Reported(h.reports, id) || id in h.closed ==> Activate(id) in h.handled)
    && (Activate(id) in h.handled || Ended(h.handled, id) ==> reserved)
  }

  ghost predicate Told(s: State, h: History) {
    && (forall id :: Shows(EntryOf(s.reg, id), id in s.upgrades, h, id))
    && (h.cancels > 0 || s.desk.pc.CancellingAll? ==> s.desk.sealed)
  }

  lemma HandledMore(handled: seq<Event>, e: Event, id: Id)
    ensures Called(handled + [e], id) <==> Called(handled, id) || (e.CallbackCompleted? && e.id == id)
    ensures Ended(handled + [e], id) <==> Ended(handled, id) || (e.UpgradeCompleted? && e.id == id)
    ensures Activate(id) in handled + [e] <==> Activate(id) in handled || e == Activate(id)
  {
  }

  lemma ReportedMore(reports: seq<Report>, r: Report, id: Id)
    ensures Reported(reports + [r], id) <==> Reported(reports, id) || r.id == id
  {
  }

  predicate Answerable(r: Registry, e: Event)
    requires !e.Stop?
  {
    if e.CallbackCompleted?
    then r.Has(e.id, {Active, Closing, Finished}) && !r.entries[e.id].callbackObserved
    else r.Has(e.id, {PendingUpgrade})
  }

  /** The lock sections of the supervisor never answer false. */
  lemma Answers(s: State)
    requires Inv(s) && Enabled(s, Handle) && !s.desk.pc.event.Stop?
    ensures Answerable(s.reg, s.desk.pc.event)
  {
    StepKeeps(s, Handle);
    assert Unharmed(Apply(s, Handle).log);
  }

  lemma ActivateShows(r: Registry, reserved: bool, h: History, it: Id, id: Id)
    requires Shows(EntryOf(r, id), reserved, h, id) && r.Has(it, {PendingUpgrade})
    ensures Shows(EntryOf(r.MarkActive(it).reg, id), reserved, h.(handled := h.handled + [Activate(it)]), id)
  {
    HandledMore(h.handled, Activate(it), id);
  }

  lemma CallbackShows(r: Registry, reserved: bool, h: History, it: Id, outcome: CallbackOutcome, id: Id)
    requires Shows(EntryOf(r, id), reserved, h, id)
    requires r.Has(it, {Active, Closing, Finished}) && !r.entries[it].callbackObserved
    ensures Shows(EntryOf(r.ObserveCallback(it, outcome).reg, id), reserved,
                  h.(handled := h.handled + [CallbackCompleted(it, outcome)]), id)
  {
    HandledMore(h.handled, CallbackCompleted(it, outcome), id);
  }

  lemma TerminalShows(r: Registry, reserved: bool, h: History, it: Id, outcome: TerminalOutcome, id: Id)
    requires Shows(EntryOf(r, id), reserved, h, id) && r.Has(it, {PendingUpgrade})
    ensures Shows(EntryOf(r.ObserveTerminal(it, outcome).reg, id), reserved,
                  h.(handled := h.handled + [UpgradeCompleted(it, outcome)]), id)
  {
    HandledMore(h.handled, UpgradeCompleted(it, outcome), id);
  }

  lemma StopShows(entry: Option<Ownership>, reserved: bool, h: History, abort: bool, id: Id)
    requires Shows(entry, reserved, h, id)
    ensures Shows(entry, reserved, h.(handled := h.handled + [Stop(abort)]), id)
  {
    HandledMore(h.handled, Stop(abort), id);
  }

  /** What handling an event does to the registry. */
  lemma HandledRegistry(s: State, e: Event)
    ensures var t := HandleEvent(s, e);
            && t.upgrades == s.upgrades
            && match e
               case Activate(id) => t.reg == s.reg.MarkActive(id).reg
               case CallbackCompleted(id, outcome) => t.reg == s.reg.ObserveCallback(id, outcome).reg
               case UpgradeCompleted(id, outcome) => t.reg == s.reg.ObserveTerminal(id, outcome).reg
               case Stop(_) => t.reg == s.reg.(accepting := false)
  {
  }

  lemma HandleShows(s: State, h: History, e: Event, id: Id)
    requires Shows(EntryOf(s.reg, id), id in s.upgrades, h, id) && (!e.Stop? ==> Answerable(s.reg, e))
    ensures var t := HandleEvent(s, e);
            Shows(EntryOf(t.reg, id), id in t.upgrades, h.(handled := h.handled + [e]), id)
  {
    HandledRegistry(s, e);
    match e
    case Activate(it) => ActivateShows(s.reg, id in s.upgrades, h, it, id);
    case CallbackCompleted(it, outcome) => CallbackShows(s.reg, id in s.upgrades, h, it, outcome, id);
    case UpgradeCompleted(it, outcome) => TerminalShows(s.reg, id in s.upgrades, h, it, outcome, id);
    case Stop(abort) => StopShows(EntryOf(s.reg, id), id in s.upgrades, h, abort, id);
  }

  lemma JoinedAnswers(s: State)
    requires Inv(s) && Enabled(s, ObserveJoined)
    ensures s.reg.Has(s.desk.pc.id, {Active, Closing})
  {
    StepKeeps(s, ObserveJoined);
    assert Unharmed(Apply(s, ObserveJoined).log);
  }

  lemma JoinedShows(r: Registry, reserved: bool, h: History, it: Id, panicked: bool, id: Id)
    requires Shows(EntryOf(r, id), reserved, h, id) && r.Has(it, {Active, Closing})
    ensures Shows(EntryOf(r.ObserveCompletion(it, panicked).reg, id), reserved,
                  h.(reports := h.reports + [Report(it, panicked)]), id)
  {
    ReportedMore(h.reports, Report(it, panicked), id);
  }

  lemma ClosingShows(r: Registry, reserved: bool, h: History, closings: nat, id: Id)
    requires Shows(EntryOf(r, id), reserved, h, id)
    ensures Shows(EntryOf(r.BeginClosing(), id), reserved, h.(closed := Activated(h.handled), closings := closings), id)
  {
  }

  lemma CancelShows(r: Registry, reserved: bool, h: History, cancels: nat, id: Id)
    requires Shows(EntryOf(r, id), reserved, h, id) && cancels > 0
    ensures Shows(EntryOf(r.CancelOwned(), id), reserved, h.(cancels := cancels), id)
  {
  }

  lemma InsertShows(r: Registry, ids: set<Id>, h: History, it: Id, id: Id)
    requires Shows(EntryOf(r, id), id in ids, h, id) && it !in ids && h.cancels == 0
    ensures Shows(EntryOf(r.Insert(it), id), id in ids + {it}, h, id)
  {
  }

  /** A request inserts an id that was never reserved, and never after a cancelling section. */
  lemma InsertFresh(s: State, h: History, r: nat)
    requires Inv(s) && Enabled(s, InsertEntry(r)) && (h.cancels > 0 ==> s.desk.sealed)
    ensures s.requests.at[r].id !in s.upgrades && h.cancels == 0
  {
    assert s.requests.lock == Some(r);
  }

  lemma SentShows(entry: Option<Ownership>, reserved: bool, h: History, sent: seq<Event>, id: Id)
    requires Shows(entry, reserved, h, id)
    ensures Shows(entry, reserved, h.(sent := sent), id)
  {
  }

  predicate Plain(a: Action) {
    !a.Handle? && !a.ObserveJoined? && !OfEveryEntry(a) && !a.InsertEntry?
  }

  lemma PlainRegistry(s: State, a: Action)
    requires Enabled(s, a) && Plain(a)
    ensures Apply(s, a).reg.entries == s.reg.entries && Apply(s, a).upgrades.Keys == s.upgrades.Keys
  {
    OnlyInsertionReserves(s, a);
  }

  /** The history after an action. */
  lemma NextIs(h: History, s: State, a: Action)
    requires Enabled(s, a)
    ensures var g := Next(h, s, a);
            && (Plain(a) || a.InsertEntry? ==> g == h.(sent := g.sent))
            && (!a.Operate? && !a.SendStop? ==> g.sent == h.sent)
            && (a.Handle? ==> g == h.(handled := h.handled + [s.desk.pc.event]))
            && (a.ObserveJoined? ==> g == h.(reports := h.reports + [Report(s.desk.pc.id, s.desk.pc.panicked)]))
            && (a.CloseAll? || a.CloseWebsockets? ==> g == h.(closed := Activated(h.handled), closings := g.closings))
            && (a.CancelAll? ==> g == h.(cancels := h.cancels + 1))
  {
  }

  lemma SectionShows(s: State, h: History, a: Action, id: Id)
    requires Shows(EntryOf(s.reg, id), id in s.upgrades, h, id) && Enabled(s, a) && OfEveryEntry(a)
    ensures var t := Apply(s, a);
            Shows(EntryOf(t.reg, id), id in t.upgrades, Next(h, s, a), id)
  {
    NextIs(h, s, a);
    if a.CancelAll? {
      CancelShows(s.reg, id in s.upgrades, h, h.cancels + 1, id);
    } else {
      ClosingShows(s.reg, id in s.upgrades, h, Next(h, s, a).closings, id);
    }
  }

  lemma PlainShows(s: State, h: History, a: Action, id: Id)
    requires Shows(EntryOf(s.reg, id), id in s.upgrades, h, id) && Enabled(s, a) && Plain(a)
    ensures var t := Apply(s, a);
            Shows(EntryOf(t.reg, id), id in t.upgrades, Next(h, s, a), id)
  {
    NextIs(h, s, a);
    PlainRegistry(s, a);
    SentShows(EntryOf(s.reg, id), id in s.upgrades, h, Next(h, s, a).sent, id);
  }

  lemma NextShows(s: State, h: History, a: Action, id: Id)
    requires Enabled(s, a) && Shows(EntryOf(s.reg, id), id in s.upgrades, h, id)
    requires a.Handle? && !s.desk.pc.event.Stop? ==> Answerable(s.reg, s.desk.pc.event)
    requires a.ObserveJoined? ==> s.reg.Has(s.desk.pc.id, {Active, Closing})
    requires a.InsertEntry? ==> s.requests.at[a.r].id !in s.upgrades && h.cancels == 0
    ensures var t := Apply(s, a);
            Shows(EntryOf(t.reg, id), id in t.upgrades, Next(h, s, a), id)
  {
    if Plain(a) {
      PlainShows(s, h, a, id);
    } else if OfEveryEntry(a) {
      SectionShows(s, h, a, id);
    } else {
      NextIs(h, s, a);
      match a
      case Handle => HandleShows(s, h, s.desk.pc.event, id);
      case ObserveJoined => JoinedShows(s.reg, id in s.upgrades, h, s.desk.pc.id, s.desk.pc.panicked, id);
      case InsertEntry(r) => InsertShows(s.reg, s.upgrades.Keys, h, s.requests.at[r].id, id);
    }
  }

  lemma SealTold(s: State, h: History, a: Action)
    requires Enabled(s, a) && (h.cancels > 0 || s.desk.pc.CancellingAll? ==> s.desk.sealed)
    ensures Next(h, s, a).cancels > 0 || Apply(s, a).desk.pc.CancellingAll? ==> Apply(s, a).desk.sealed
  {
    if s.desk.sealed {
      SealStays(s, a);
    } else if a.Handle? {
      HandledDesk(s, s.desk.pc.event);
    } else {
      assert a.CloseAll? || !Apply(s, a).desk.pc.CancellingAll?;
    }
  }

  lemma HandledDesk(s: State, e: Event)
    ensures HandleEvent(s, e).desk.pc == if e.Stop? then ClosingAll(e.abort) else Looping
    ensures HandleEvent(s, e).desk.stopping == (s.desk.stopping || e.Stop?)
    ensures HandleEvent(s, e).reg.accepting == (s.reg.accepting && !e.Stop?)
  {
  }

  lemma ToldStep(s: State, h: History, a: Action)
    requires Inv(s) && Told(s, h) && Enabled(s, a)
    ensures Told(Apply(s, a), Next(h, s, a))
  {
    SealTold(s, h, a);
    if a.Handle? && !s.desk.pc.event.Stop? {
      Answers(s);
    } else if a.ObserveJoined? {
      JoinedAnswers(s);
    } else if a.InsertEntry? {
      InsertFresh(s, h, a.r);
    }
    var t, g := Apply(s, a), Next(h, s, a);
    forall id ensures Shows(EntryOf(t.reg, id), id in t.upgrades, g, id) {
      assert Shows(EntryOf(s.reg, id), id in s.upgrades, h, id);
      NextShows(s, h, a, id);
    }
  }

  lemma {:induction false} RunTold(run: seq<Action>)
    requires Valid(INITIAL, run)
    ensures Inv(Final(INITIAL, run)) && Told(Final(INITIAL, run), Past(run))
    decreases |run|
  {
    InitialInv();
    if run != [] {
      var k := |run| - 1;
      RunBack(INITIAL, run);
      RunTold(run[..k]);
      StepKeeps(Final(INITIAL, run[..k]), run[k]);
      ToldStep(Final(INITIAL, run[..k]), Past(run[..k]), run[k]);
    }
  }

  /**
   * On every run an id is registered, and its entry is pending, active, closing or finished, its
   * callback observed and its connection signalled, exactly as the events handled, the tasks joined
   * and the closing and cancelling sections say.
   */
  lemma EntryHistory(run: seq<Action>, id: Id)
    requires Valid(INITIAL, run)
    ensures var s := Final(INITIAL, run);
            Shows(EntryOf(s.reg, id), id in s.upgrades, Past(run), id)
  {
    RunTold(run);
  }

  // ----- stopping and cancelling -----

  function Stops(events: seq<Event>): nat {
    if events == [] then 0 else Stops(events[..|events| - 1]) + if events[|events| - 1].Stop? then 1 else 0
  }

  function Aborts(events: seq<Event>): nat {
    if events == [] then 0 else Aborts(events[..|events| - 1]) + if events[|events| - 1] == Stop(true) then 1 else 0
  }

  predicate Cancelling(pc: Supervisor) {
    pc == ClosingAll(true) || pc == CancellingAll
  }

  /** The sections a handled stop owes, and what it has shut. */
  predicate StopTold(s: State, h: History, stopped: bool) {
    && Stops(h.handled) == h.closings + (if s.desk.pc.ClosingAll? then 1 else 0)
    && Aborts(h.handled) == h.cancels + (if Cancelling(s.desk.pc) then 1 else 0)
    && s.desk.stopping == (Stops(h.handled) > 0)
    && s.reg.accepting == (!stopped && Stops(h.handled) == 0)
  }

  lemma StopsMore(events: seq<Event>, e: Event)
    ensures Stops(events + [e]) == Stops(events) + if e.Stop? then 1 else 0
    ensures Aborts(events + [e]) == Aborts(events) + if e == Stop(true) then 1 else 0
  {
    assert (events + [e])[..|events|] == events;
  }

  lemma SentDesk(s: State, id: Id, op: Op)
    requires Enabled(s, Operate(id, op))
    ensures Apply(s, Operate(id, op)).desk == s.desk && Apply(s, Operate(id, op)).reg == s.reg
  {
  }

  lemma SameDesk(s: State, a: Action)
    requires Enabled(s, a) && !a.Handle? && !a.CloseAll? && !a.Operate?
    ensures var t := Apply(s, a);
            && t.desk.stopping == s.desk.stopping && t.reg.accepting == (s.reg.accepting && !a.StopAccepting?)
            && t.desk.pc.ClosingAll? == s.desk.pc.ClosingAll?
            && Cancelling(t.desk.pc) == (Cancelling(s.desk.pc) && !a.CancelAll?)
  {
  }

  lemma StopStep(s: State, h: History, a: Action, stopped: bool)
    requires StopTold(s, h, stopped) && Enabled(s, a)
    ensures StopTold(Apply(s, a), Next(h, s, a), stopped || a.StopAccepting?)
  {
    NextIs(h, s, a);
    if a.Handle? {
      StopsMore(h.handled, s.desk.pc.event);
      HandledDesk(s, s.desk.pc.event);
    } else if a.CloseAll? {
    } else {
      assert Next(h, s, a).handled == h.handled && Next(h, s, a).closings == h.closings;
      if a.Operate? {
        SentDesk(s, a.id, a.op);
      } else {
        SameDesk(s, a);
      }
    }
  }

  lemma {:induction false} RunStops(run: seq<Action>)
    requires Valid(INITIAL, run)
    ensures StopTold(Final(INITIAL, run), Past(run), StopAccepting in run)
    decreases |run|
  {
    if run != [] {
      var k := |run| - 1;
      RunBack(INITIAL, run);
      RunStops(run[..k]);
      StopStep(Final(INITIAL, run[..k]), Past(run[..k]), run[k], StopAccepting in run[..k]);
      assert StopAccepting in run <==> StopAccepting in run[..k] || run[k].StopAccepting?;
    }
  }

  /**
   * On every run the supervisor is stopping exactly when it has handled a stop, and admission is
   * open exactly when neither it nor the handle has stopped it. Every handled stop closes all
   * entries once, and every aborting one and no other cancels all entries once: between these
   * sections an entry is signalled exactly when an aborting stop was handled.
   */
  lemma StopsHonoured(run: seq<Action>)
    requires Valid(INITIAL, run)
    ensures var s, h := Final(INITIAL, run), Past(run);
            && StopTold(s, h, StopAccepting in run)
            && (!Cancelling(s.desk.pc) ==>
                  forall id :: id in s.reg.entries ==> (s.reg.entries[id].cancelled <==> Stop(true) in h.handled))
  {
    RunStops(run);
    RunTold(run);
    var s, h := Final(INITIAL, run), Past(run);
    AbortsSome(h.handled);
    forall id | id in s.reg.entries ensures s.reg.entries[id].cancelled == (h.cancels > 0) {
      assert Shows(EntryOf(s.reg, id), id in s.upgrades, h, id);
    }
  }

  lemma {:induction false} AbortsSome(events: seq<Event>)
    ensures Aborts(events) > 0 <==> Stop(true) in events
  {
    if events != [] {
      AbortsSome(events[..|events| - 1]);
    }
  }

  // ----- counters -----

  predicate EndsCallback(e: Event) {
    e.CallbackCompleted? || (e.UpgradeCompleted? && e.terminal in {CallbackCancelled, CallbackPanicked})
  }

  predicate Panics(e: Event) {
    || (e.CallbackCompleted? && e.callback == CallbackRaised)
    || (e.UpgradeCompleted? && e.terminal in {Panicked, CallbackPanicked})
  }

  predicate Completes(e: Event) {
    e.UpgradeCompleted?
  }

  function Count(events: seq<Event>, p: Event -> bool): nat {
    if events == [] then 0 else Count(events[..|events| - 1], p) + if p(events[|events| - 1]) then 1 else 0
  }

  function PanickedTasks(reports: seq<Report>): nat {
    if reports == [] then 0
    else PanickedTasks(reports[..|reports| - 1]) + if reports[|reports| - 1].panicked then 1 else 0
  }

  /** Every callback, panic and completion handled or joined was counted once. */
  predicate Counts(r: Registry, h: History) {
    && r.callbacks == Count(h.handled, EndsCallback)
    && r.panics == Count(h.handled, Panics) + PanickedTasks(h.reports)
    && r.completions == Count(h.handled, Completes) + |h.reports|
  }

  lemma CountMore(events: seq<Event>, e: Event, p: Event -> bool)
    ensures Count(events + [e], p) == Count(events, p) + if p(e) then 1 else 0
  {
    assert (events + [e])[..|events|] == events;
  }

  lemma PanickedMore(reports: seq<Report>, r: Report)
    ensures PanickedTasks(reports + [r]) == PanickedTasks(reports) + if r.panicked then 1 else 0
  {
    assert (reports + [r])[..|reports|] == reports;
  }

  lemma HandleCounts(s: State, h: History, e: Event)
    requires Counts(s.reg, h) && (!e.Stop? ==> Answerable(s.reg, e))
    ensures Counts(HandleEvent(s, e).reg, h.(handled := h.handled + [e]))
  {
    HandledRegistry(s, e);
    CountMore(h.handled, e, EndsCallback);
    CountMore(h.handled, e, Panics);
    CountMore(h.handled, e, Completes);
  }

  lemma JoinedCounts(r: Registry, h: History, id: Id, panicked: bool)
    requires Counts(r, h) && r.Has(id, {Active, Closing})
    ensures Counts(r.ObserveCompletion(id, panicked).reg, h.(reports := h.reports + [Report(id, panicked)]))
  {
    PanickedMore(h.reports, Report(id, panicked));
  }

  lemma SameCounters(s: State, a: Action)
    requires Enabled(s, a) && !a.Handle? && !a.ObserveJoined?
    ensures var r := Apply(s, a).reg;
            r.callbacks == s.reg.callbacks && r.panics == s.reg.panics && r.completions == s.reg.completions
  {
    if a.Operate? {
      SentDesk(s, a.id, a.op);
    }
  }

  lemma CountsStep(s: State, h: History, a: Action)
    requires Inv(s) && Counts(s.reg, h) && Enabled(s, a)
    ensures Counts(Apply(s, a).reg, Next(h, s, a))
  {
    NextIs(h, s, a);
    if a.Handle? {
      if !s.desk.pc.event.Stop? {
        Answers(s);
      }
      HandleCounts(s, h, s.desk.pc.event);
    } else if a.ObserveJoined? {
      JoinedAnswers(s);
      JoinedCounts(s.reg, h, s.desk.pc.id, s.desk.pc.panicked);
    } else {
      SameCounters(s, a);
    }
  }

  /** On every run the registry's counters are the callbacks, panics and completions handled or joined. */
  lemma {:induction false} CountersExact(run: seq<Action>)
    requires Valid(INITIAL, run)
    ensures Counts(Final(INITIAL, run).reg, Past(run))
    decreases |run|
  {
    if run != [] {
      var k := |run| - 1;
      RunBack(INITIAL, run);
      CountersExact(run[..k]);
      RunTold(run[..k]);
      CountsStep(Final(INITIAL, run[..k]), Past(run[..k]), run[k]);
    }
  }
}
