/** The supervisor's actions and the end of a connection task keep the invariant. */
module ConnectionSupervision {
  import opened Prelude
  import opened ConnectionRegistry
  import opened ConnectionProtocol
  import opened ConnectionInvariant

  /** The head of the queue, in the supervisor's hands, is the head of its id's events. */
  lemma QueueTail(e: Event, pc: Supervisor, channel: seq<Event>, id: Id)
    requires !pc.Handling?
    ensures Queue(Handling(e), channel) == [e] + Queue(pc, channel)
    ensures !e.Stop? && e.id == id ==>
              EventsFor(Queue(Handling(e), channel), id) == [e] + EventsFor(Queue(pc, channel), id)
    ensures e.Stop? || e.id != id ==>
              EventsFor(Queue(Handling(e), channel), id) == EventsFor(Queue(pc, channel), id)
  {
  }

  lemma TasksUpdate(tasks: map<nat, Task>, n: nat, task: Task, id: Id, running: bool)
    ensures TasksOf(tasks[n := task], id, running) ==
            (TasksOf(tasks, id, running) - {n}) + if task.id == id && task.running == running then {n} else {}
  {
  }

  lemma TasksRemove(tasks: map<nat, Task>, n: nat, id: Id, running: bool)
    ensures TasksOf(tasks - {n}, id, running) == TasksOf(tasks, id, running) - {n}
  {
  }

  // ----- activation -----

  function ActivatedView(v: View, n: nat): View
    requires v.entry.Some? && v.events != []
  {
    v.(entry := Some(v.entry.value.(state := Active)), events := v.events[1..], live := {n})
  }

  lemma ActivatePhase(v: View, n: nat)
    requires Phase(v) && v.events != [] && v.events[0].Activate?
    ensures EntryIs(v, {PendingUpgrade}, false) && Phase(ActivatedView(v, n))
    ensures Holds(v) && Holds(ActivatedView(v, n)) && v.live == v.ended == {} && !v.joined
  {
  }

  lemma SpawnTasks(d: Desk, id: Id, ids: set<Id>, i: Id)
    requires TasksLinked(d, ids)
    ensures TasksOf(Spawn(d, id).tasks, i, true) == TasksOf(d.tasks, i, true) + if i == id then {d.nextTask} else {}
    ensures TasksOf(Spawn(d, id).tasks, i, false) == TasksOf(d.tasks, i, false)
  {
  }

  lemma ActivateViews(s: State, id: Id)
    requires TasksLinked(s.desk, s.upgrades.Keys) && id in s.upgrades && s.reg.Has(id, {PendingUpgrade})
    requires s.desk.pc == Handling(Activate(id)) && ViewOf(s, id).live == {}
    ensures var t := HandleActivate(s, id);
            && SameElsewhere(s, t, id)
            && ViewOf(s, id).events != [] && ViewOf(t, id) == ActivatedView(ViewOf(s, id), s.desk.nextTask)
  {
    var t := HandleActivate(s, id);
    forall i | i in s.upgrades && i != id ensures ViewOf(t, i) == ViewOf(s, i) {
      SpawnTasks(s.desk, id, s.upgrades.Keys, i);
      QueueTail(Activate(id), Looping, s.channel, i);
      assert EntryOf(t.reg, i) == EntryOf(s.reg, i);
    }
    SpawnTasks(s.desk, id, s.upgrades.Keys, id);
    QueueTail(Activate(id), Looping, s.channel, id);
  }

  lemma ActivateLinked(s: State, id: Id)
    requires Linked(s) && s.desk.pc == Handling(Activate(id)) && id in s.upgrades && s.reg.Has(id, {PendingUpgrade})
    ensures Linked(HandleActivate(s, id))
  {
  }

  lemma HandledIsReserved(s: State)
    requires Linked(s) && s.desk.pc.Handling? && !s.desk.pc.event.Stop?
    ensures s.desk.pc.event.id in s.upgrades
    ensures ViewOf(s, s.desk.pc.event.id).events != [] && ViewOf(s, s.desk.pc.event.id).events[0] == s.desk.pc.event
  {
  }

  lemma ActivateStep(s: State, id: Id)
    requires Inv(s) && s.desk.pc == Handling(Activate(id))
    ensures Inv(HandleActivate(s, id))
  {
    HandledIsReserved(s);
    var v := ViewOf(s, id);
    assert Phase(v);
    ActivatePhase(v, s.desk.nextTask);
    ActivateViews(s, id);
    ActivateLinked(s, id);
    LocalStep(s, HandleActivate(s, id), id);
  }

  // ----- lock sections that decide something about one id -----

  lemma DecidedElsewhere(s: State, id: Id, answer: Answer, consumes: bool, i: Id)
    requires i in s.upgrades && i != id && EntryOf(answer.reg, i) == EntryOf(s.reg, i)
    requires s.desk.pc.Handling? ==> !s.desk.pc.event.Stop? && s.desk.pc.event.id == id
    requires s.desk.pc.Joined? ==> s.desk.pc.id == id
    ensures ViewOf(Decided(s, id, answer, consumes), i) == ViewOf(s, i)
  {
    if s.desk.pc.Handling? {
      QueueTail(s.desk.pc.event, Looping, s.channel, i);
    }
  }

  /** The view of the id after the decision. */
  function ViewDecided(v: View, entry: Option<Ownership>, handled: bool, observed: nat, consumed: nat): View
    requires handled ==> v.events != []
  {
    v.(entry := entry, events := if handled then v.events[1..] else v.events, joined := false,
    observed := v.observed + observed, consumed := v.consumed + consumed,
    removed := v.removed + if v.entry.Some? && entry == None then 1 else 0)
  }

  lemma DecidedHere(s: State, id: Id, answer: Answer, consumes: bool)
    requires id in s.upgrades && !s.desk.pc.Returned?
    requires s.desk.pc.Handling? ==> !s.desk.pc.event.Stop? && s.desk.pc.event.id == id
    ensures var v := ViewOf(s, id);
            && (s.desk.pc.Handling? ==> v.events != [])
            && ViewOf(Decided(s, id, answer, consumes), id) ==
               ViewDecided(v, EntryOf(answer.reg, id), s.desk.pc.Handling?, if answer.ok && !consumes then 1 else 0,
                           if answer.ok && consumes then 1 else 0)
  {
    if s.desk.pc.Handling? {
      QueueTail(s.desk.pc.event, Looping, s.channel, id);
    }
  }

  lemma DecidedViews(s: State, id: Id, answer: Answer, consumes: bool)
    requires id in s.upgrades && !s.desk.pc.Returned?
    requires forall i :: i != id ==> EntryOf(answer.reg, i) == EntryOf(s.reg, i)
    requires s.desk.pc.Handling? ==> !s.desk.pc.event.Stop? && s.desk.pc.event.id == id
    requires s.desk.pc.Joined? ==> s.desk.pc.id == id
    ensures var t, v := Decided(s, id, answer, consumes), ViewOf(s, id);
            && SameElsewhere(s, t, id)
            && (s.desk.pc.Handling? ==> v.events != [])
            && ViewOf(t, id) ==
               ViewDecided(v, EntryOf(answer.reg, id), s.desk.pc.Handling?, if answer.ok && !consumes then 1 else 0,
                           if answer.ok && consumes then 1 else 0)
  {
    forall i | i in s.upgrades && i != id ensures ViewOf(Decided(s, id, answer, consumes), i) == ViewOf(s, i) {
      DecidedElsewhere(s, id, answer, consumes, i);
    }
    DecidedHere(s, id, answer, consumes);
  }

  lemma DecidedLinked(s: State, id: Id, answer: Answer, consumes: bool)
    requires Linked(s) && id in s.upgrades && !s.desk.pc.Returned? && !s.desk.pc.ClosingAll?
    requires answer.ok && answer.reg.entries.Keys <= s.reg.entries.Keys
    requires answer.reg.nextId == s.reg.nextId && answer.reg.accepting == s.reg.accepting
    requires consumes ==> s.reg.completions < s.reg.nextId - 1
    ensures Linked(Decided(s, id, answer, consumes))
  {
  }

  /** A decision keeps the invariant if the new view is a phase that holds what the old one held. */
  lemma DecidedStep(s: State, id: Id, answer: Answer, consumes: bool)
    requires Inv(s) && id in s.upgrades
    requires SameElsewhere(s, Decided(s, id, answer, consumes), id) && Linked(Decided(s, id, answer, consumes))
    requires Phase(ViewOf(Decided(s, id, answer, consumes), id))
    requires Holds(ViewOf(Decided(s, id, answer, consumes), id)) == Holds(ViewOf(s, id))
    requires answer.ok && answer.reg.nextId == s.reg.nextId
    requires answer.reg.completions == s.reg.completions + if consumes then 1 else 0
    requires consumes ==> s.log.consumed[id] == 0
    ensures Inv(Decided(s, id, answer, consumes))
  {
    LocalStep(s, Decided(s, id, answer, consumes), id);
  }

  lemma CallbackPhase(v: View, w: View)
    requires Phase(v) && v.events != [] && v.events[0].CallbackCompleted?
    requires v.entry.Some? && v.entry.value.state in {Active, Closing, Finished} && !v.entry.value.callbackObserved ==>
               w == v.(entry := if v.entry.value.state == Finished then None else Some(v.entry.value.(callbackObserved := true)),
               events := v.events[1..], joined := false, observed := v.observed + 1,
               removed := v.removed + if v.entry.value.state == Finished then 1 else 0)
    requires !v.joined
    ensures EntryIs(v, {Active, Closing, Finished}, false) && Phase(w) && Holds(v) == Holds(w)
    ensures w.consumed == v.consumed
  {
  }

  lemma CallbackLocal(s: State, id: Id, outcome: CallbackOutcome)
    requires id in s.upgrades && Phase(ViewOf(s, id)) && s.desk.pc == Handling(CallbackCompleted(id, outcome))
    ensures var t := Decided(s, id, s.reg.ObserveCallback(id, outcome), false);
            && s.reg.Has(id, {Active, Closing, Finished}) && !s.reg.entries[id].callbackObserved
            && SameElsewhere(s, t, id) && Phase(ViewOf(t, id)) && Holds(ViewOf(t, id)) == Holds(ViewOf(s, id))
  {
    var answer := s.reg.ObserveCallback(id, outcome);
    QueueTail(s.desk.pc.event, Looping, s.channel, id);
    DecidedViews(s, id, answer, false);
    CallbackPhase(ViewOf(s, id), ViewOf(Decided(s, id, answer, false), id));
  }

  lemma CallbackStep(s: State, id: Id, outcome: CallbackOutcome)
    requires Inv(s) && s.desk.pc == Handling(CallbackCompleted(id, outcome))
    ensures Inv(Decided(s, id, s.reg.ObserveCallback(id, outcome), false))
  {
    HandledIsReserved(s);
    assert Phase(ViewOf(s, id));
    CallbackLocal(s, id, outcome);
    DecidedLinked(s, id, s.reg.ObserveCallback(id, outcome), false);
    DecidedStep(s, id, s.reg.ObserveCallback(id, outcome), false);
  }

  lemma TerminalStepPhase(v: View, w: View)
    requires Phase(v) && v.events != [] && v.events[0].UpgradeCompleted? && !v.joined
    requires v.entry.Some? && v.entry.value.state == PendingUpgrade ==>
               w == v.(entry := None, events := v.events[1..], joined := false, consumed := v.consumed + 1,
               removed := v.removed + 1)
    ensures EntryIs(v, {PendingUpgrade}, false) && Phase(w) && v.consumed == 0 && Holds(v) == Holds(w)
  {
  }

  lemma {:induction false} Monotone(a: set<Id>, b: set<Id>)
    requires a <= b
    ensures |a| <= |b|
  {
    if a != {} {
      var x :| x in a;
      Monotone(a - {x}, b - {x});
    }
  }

  /** The counter assertion that guards every recorded completion. */
  lemma CompletionsBelowIssued(s: State, id: Id)
    requires Counted(s) && id in s.upgrades && s.log.consumed[id] == 0
    ensures s.reg.completions < s.reg.nextId - 1
  {
    var ids := s.upgrades.Keys;
    assert |ids - {id}| == |ids| - 1;
    Monotone(ConsumedIds(ids, s.log.consumed), ids - {id});
  }

  lemma JoinedIsUnconsumed(v: View)
    requires Phase(v) && v.joined
    ensures v.consumed == 0 && v.entry.Some? && v.entry.value.state in {Active, Closing}
  {
  }

  lemma TerminalLocal(s: State, id: Id, outcome: TerminalOutcome)
    requires id in s.upgrades && Phase(ViewOf(s, id)) && s.desk.pc == Handling(UpgradeCompleted(id, outcome))
    ensures var t := Decided(s, id, s.reg.ObserveTerminal(id, outcome), true);
            && s.reg.Has(id, {PendingUpgrade}) && s.log.consumed[id] == 0
            && SameElsewhere(s, t, id) && Phase(ViewOf(t, id)) && Holds(ViewOf(t, id)) == Holds(ViewOf(s, id))
  {
    var answer := s.reg.ObserveTerminal(id, outcome);
    QueueTail(s.desk.pc.event, Looping, s.channel, id);
    DecidedViews(s, id, answer, true);
    TerminalStepPhase(ViewOf(s, id), ViewOf(Decided(s, id, answer, true), id));
  }

  lemma TerminalStep(s: State, id: Id, outcome: TerminalOutcome)
    requires Inv(s) && s.desk.pc == Handling(UpgradeCompleted(id, outcome))
    ensures Inv(Decided(s, id, s.reg.ObserveTerminal(id, outcome), true))
  {
    HandledIsReserved(s);
    assert Phase(ViewOf(s, id));
    TerminalLocal(s, id, outcome);
    CompletionsBelowIssued(s, id);
    DecidedLinked(s, id, s.reg.ObserveTerminal(id, outcome), true);
    DecidedStep(s, id, s.reg.ObserveTerminal(id, outcome), true);
  }

  lemma JoinedPhase(v: View, w: View)
    requires Phase(v) && v.joined && v.entry.Some?
    requires w == v.(entry := if v.entry.value.callbackObserved then None else Some(v.entry.value.(state := Finished)),
                  joined := false, consumed := v.consumed + 1,
                  removed := v.removed + if v.entry.value.callbackObserved then 1 else 0)
    ensures Phase(w) && Holds(v) == Holds(w)
  {
  }

  lemma JoinedLocal(s: State, id: Id, panicked: bool)
    requires id in s.upgrades && Phase(ViewOf(s, id)) && s.desk.pc == Joined(id, panicked)
    ensures var t := Decided(s, id, s.reg.ObserveCompletion(id, panicked), true);
            && s.reg.Has(id, {Active, Closing}) && s.log.consumed[id] == 0
            && SameElsewhere(s, t, id) && Phase(ViewOf(t, id)) && Holds(ViewOf(t, id)) == Holds(ViewOf(s, id))
  {
    var answer := s.reg.ObserveCompletion(id, panicked);
    JoinedIsUnconsumed(ViewOf(s, id));
    DecidedViews(s, id, answer, true);
    JoinedPhase(ViewOf(s, id), ViewOf(Decided(s, id, answer, true), id));
  }

  lemma JoinedStep(s: State, id: Id, panicked: bool)
    requires Inv(s) && s.desk.pc == Joined(id, panicked)
    ensures Inv(Decided(s, id, s.reg.ObserveCompletion(id, panicked), true))
  {
    assert Phase(ViewOf(s, id));
    JoinedLocal(s, id, panicked);
    CompletionsBelowIssued(s, id);
    DecidedLinked(s, id, s.reg.ObserveCompletion(id, panicked), true);
    DecidedStep(s, id, s.reg.ObserveCompletion(id, panicked), true);
  }

  // ----- tasks -----

  /** The tasks of an id are one task at most. */
  lemma SoleView(v: View, n: nat)
    requires Phase(v)
    ensures n in v.live ==> v.live == {n} && v.ended == {} && !v.joined
    ensures n in v.ended ==> v.ended == {n} && v.live == {} && !v.joined
  {
  }

  lemma EndPhase(v: View, n: nat)
    requires Phase(v) && v.live == {n}
    ensures Phase(v.(live := {}, ended := {n})) && Holds(v) && !Holds(v.(live := {}, ended := {n}))
  {
  }

  lemma EndViews(s: State, n: nat, outcome: TaskOutcome)
    requires n in s.desk.tasks && s.desk.tasks[n].running && s.desk.tasks[n].id in s.upgrades
    requires var v := ViewOf(s, s.desk.tasks[n].id); v.live == {n} && v.ended == {}
    ensures var t, id := TaskEnded(s, n, outcome), s.desk.tasks[n].id;
            SameElsewhere(s, t, id) && ViewOf(t, id) == ViewOf(s, id).(live := {}, ended := {n})
  {
    var t, task := TaskEnded(s, n, outcome), s.desk.tasks[n].(running := false, outcome := outcome);
    forall i, running | i in s.upgrades
      ensures TasksOf(t.desk.tasks, i, running) ==
              (TasksOf(s.desk.tasks, i, running) - {n}) + if task.id == i && !running then {n} else {}
    {
      TasksUpdate(s.desk.tasks, n, task, i, running);
    }
    forall i | i in s.upgrades && i != task.id ensures ViewOf(t, i) == ViewOf(s, i) {
      assert n !in TasksOf(s.desk.tasks, i, true) && n !in TasksOf(s.desk.tasks, i, false);
    }
  }

  lemma EndLinked(s: State, n: nat, outcome: TaskOutcome)
    requires Linked(s) && n in s.desk.tasks
    ensures Linked(TaskEnded(s, n, outcome))
  {
  }

  lemma EndStep(s: State, n: nat, outcome: TaskOutcome)
    requires Inv(s) && n in s.desk.tasks && s.desk.tasks[n].running
    ensures Inv(TaskEnded(s, n, outcome))
  {
    var id := s.desk.tasks[n].id;
    assert Phase(ViewOf(s, id));
    SoleView(ViewOf(s, id), n);
    EndPhase(ViewOf(s, id), n);
    EndViews(s, n, outcome);
    EndLinked(s, n, outcome);
    LocalStep(s, TaskEnded(s, n, outcome), id);
  }

  lemma JoinPhase(v: View, n: nat)
    requires Phase(v) && v.ended == {n}
    ensures Phase(v.(ended := {}, joined := true)) && Holds(v.(ended := {}, joined := true)) == Holds(v)
  {
  }

  /** Both ways of naming the connection of a joined task agree. */
  lemma JoinNamesTheTask(s: State, n: nat)
    requires TasksLinked(s.desk, s.upgrades.Keys) && n in s.desk.tasks
    ensures TaskJoined(s, n) == s.(desk := Forget(s.desk, n, Joined(s.desk.tasks[n].id, s.desk.tasks[n].outcome == Raised)))
  {
  }

  lemma JoinViews(s: State, n: nat, panicked: bool)
    requires n in s.desk.tasks && !s.desk.tasks[n].running && s.desk.tasks[n].id in s.upgrades && s.desk.pc == Looping
    requires ViewOf(s, s.desk.tasks[n].id).ended == {n}
    ensures var id := s.desk.tasks[n].id;
            var t := s.(desk := Forget(s.desk, n, Joined(id, panicked)));
            SameElsewhere(s, t, id) && ViewOf(t, id) == ViewOf(s, id).(ended := {}, joined := true)
  {
    var id := s.desk.tasks[n].id;
    var t := s.(desk := Forget(s.desk, n, Joined(id, panicked)));
    forall i | i in s.upgrades
      ensures TasksOf(t.desk.tasks, i, true) == TasksOf(s.desk.tasks, i, true)
      ensures TasksOf(t.desk.tasks, i, false) == TasksOf(s.desk.tasks, i, false) - if i == id then {n} else {}
    {
      TasksRemove(s.desk.tasks, n, i, true);
      TasksRemove(s.desk.tasks, n, i, false);
    }
    assert Queue(t.desk.pc, t.channel) == Queue(s.desk.pc, s.channel);
  }

  lemma JoinStep(s: State, n: nat)
    requires Inv(s) && n in s.desk.tasks && !s.desk.tasks[n].running && s.desk.pc == Looping
    ensures Inv(TaskJoined(s, n))
  {
    var id, panicked := s.desk.tasks[n].id, s.desk.tasks[n].outcome == Raised;
    assert Phase(ViewOf(s, id));
    SoleView(ViewOf(s, id), n);
    JoinPhase(ViewOf(s, id), n);
    JoinNamesTheTask(s, n);
    JoinViews(s, n, panicked);
    JoinLinked(s, n, panicked);
    LocalStep(s, TaskJoined(s, n), id);
  }

  lemma JoinLinked(s: State, n: nat, panicked: bool)
    requires Linked(s) && n in s.desk.tasks && s.desk.pc == Looping
    ensures Linked(s.(desk := Forget(s.desk, n, Joined(s.desk.tasks[n].id, panicked))))
  {
  }

  // ----- receiving, stopping, closing, returning -----

  lemma TakeStep(s: State)
    requires Inv(s) && s.desk.pc == Looping && s.channel != []
    ensures Inv(Take(s))
  {
    assert Queue(Take(s).desk.pc, Take(s).channel) == Queue(s.desk.pc, s.channel);
    SameViews(s, Take(s));
  }

  lemma StopStep(s: State, abort: bool)
    requires Inv(s) && s.desk.pc == Handling(Stop(abort))
    ensures Inv(HandleStop(s, abort))
  {
    var t := HandleStop(s, abort);
    forall i ensures EventsFor(Queue(t.desk.pc, t.channel), i) == EventsFor(Queue(s.desk.pc, s.channel), i) {
      QueueTail(Stop(abort), ClosingAll(abort), s.channel, i);
    }
    QueueTail(Stop(abort), ClosingAll(abort), s.channel, 0);
    SameViews(s, t);
  }

  lemma ReturnStep(s: State)
    requires Inv(s) && Enabled(s, Return)
    ensures Inv(s.(desk := s.desk.(pc := Returned)))
  {
    assert Queue(Returned, s.channel) == Queue(s.desk.pc, s.channel);
    SameViews(s, s.(desk := s.desk.(pc := Returned)));
  }

  lemma ClosePhase(v: View, e: Ownership)
    requires Phase(v) && v.entry.Some?
    requires e == Close(v.entry.value) || e == v.entry.value.(cancelled := true)
    ensures Phase(v.(entry := Some(e)))
  {
  }

  predicate Unoccupied(p: Supervisor) {
    !p.Handling? && !p.Joined?
  }

  lemma EveryEntryPhases(s: State, r: Registry, d: Desk)
    requires Phases(s) && (r == s.reg.BeginClosing() || r == s.reg.CancelOwned()) && d.tasks == s.desk.tasks
    requires d.pc == s.desk.pc || (Unoccupied(s.desk.pc) && Unoccupied(d.pc))
    ensures var t := EveryEntry(s, r, d);
            Phases(t) && forall i :: i in s.upgrades ==> Holds(ViewOf(t, i)) == Holds(ViewOf(s, i))
  {
    var t := EveryEntry(s, r, d);
    assert Queue(d.pc, s.channel) == Queue(s.desk.pc, s.channel);
    forall i | i in s.upgrades ensures Phase(ViewOf(t, i)) && Holds(ViewOf(t, i)) == Holds(ViewOf(s, i)) {
      assert Phase(ViewOf(s, i));
      if i in s.reg.entries {
        ClosePhase(ViewOf(s, i), r.entries[i]);
        assert ViewOf(t, i) == ViewOf(s, i).(entry := Some(r.entries[i]));
      } else {
        assert ViewOf(t, i) == ViewOf(s, i);
      }
    }
  }

  lemma EveryEntryShape(reg: Registry, r: Registry)
    requires r == reg.BeginClosing() || r == reg.CancelOwned()
    ensures r == reg.(entries := r.entries) && r.entries.Keys == reg.entries.Keys
  {
  }

  /** Closing or cancelling every entry at once. */
  lemma EveryEntryStep(s: State, r: Registry, d: Desk)
    requires Inv(s) && (r == s.reg.BeginClosing() || r == s.reg.CancelOwned())
    requires Sealed(r, s.requests.lock, d) && d == s.desk.(pc := d.pc, sealed := d.sealed)
    requires d.pc == s.desk.pc || (Unoccupied(s.desk.pc) && Unoccupied(d.pc))
    ensures Inv(EveryEntry(s, r, d))
  {
    EveryEntryShape(s.reg, r);
    EveryEntryPhases(s, r, d);
    EveryEntryLinked(s, r, d);
    GlobalStep(s, EveryEntry(s, r, d));
  }

  lemma EveryEntryLinked(s: State, r: Registry, d: Desk)
    requires Linked(s) && r == s.reg.(entries := r.entries) && r.entries.Keys == s.reg.entries.Keys
    requires Sealed(r, s.requests.lock, d) && d == s.desk.(pc := d.pc, sealed := d.sealed)
    requires d.pc == s.desk.pc || (Unoccupied(s.desk.pc) && Unoccupied(d.pc))
    ensures Linked(EveryEntry(s, r, d))
  {
  }
}
