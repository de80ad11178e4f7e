/**
 * The inductive invariant of ConnectionProtocol: what every interleaving keeps.
 *
 * Everything the protocol knows about one connection id is gathered in a `View`; `Phase` lists
 * the views that can occur. Each action changes the view of at most one id, except for the two
 * actions that close or cancel every entry at once.
 */
module ConnectionInvariant {
  import opened Prelude
  import opened ConnectionRegistry
  import opened ConnectionProtocol

  datatype View = View(
    u: Upgrade,
    entry: Option<Ownership>,
    events: seq<Event>,
    live: set<nat>,
    ended: set<nat>,
    joined: bool,
    observed: nat,
    consumed: nat,
    removed: nat)

  function EventsFor(q: seq<Event>, id: Id): seq<Event> {
    if q == [] then []
    else (if !q[0].Stop? && q[0].id == id then [q[0]] else []) + EventsFor(q[1..], id)
  }

  /** The event in the supervisor's hands, then the channel. */
  function Queue(pc: Supervisor, channel: seq<Event>): seq<Event> {
    (if pc.Handling? then [pc.event] else []) + channel
  }

  function TasksOf(tasks: map<nat, Task>, id: Id, running: bool): set<nat> {
    set t | t in tasks && tasks[t].id == id && tasks[t].running == running
  }

  function EntryOf(r: Registry, id: Id): Option<Ownership> {
    if id in r.entries then Some(r.entries[id]) else None
  }

  predicate JoinedTo(pc: Supervisor, id: Id) {
    pc.Joined? && pc.id == id
  }

  function ViewOf(s: State, id: Id): View
    requires id in s.upgrades
  {
    View(s.upgrades[id],
         EntryOf(s.reg, id),
         EventsFor(Queue(s.desk.pc, s.channel), id),
         TasksOf(s.desk.tasks, id, true),
         TasksOf(s.desk.tasks, id, false),
         JoinedTo(s.desk.pc, id),
         s.log.observed[id], s.log.consumed[id], s.log.removed[id])
  }

  predicate EntryIs(v: View, states: set<OwnershipState>, callbackObserved: bool) {
    v.entry.Some? && v.entry.value.state in states && v.entry.value.callbackObserved == callbackObserved
  }

  predicate NoTask(v: View) {
    v.live == {} && v.ended == {} && !v.joined
  }

  ghost predicate OneTask(v: View) {
    || (v.live == {} && v.ended == {} && v.joined)
    || (!v.joined && v.ended == {} && exists t :: v.live == {t})
    || (!v.joined && v.live == {} && exists t :: v.ended == {t})
  }

  /** Reserved and not yet decided by the supervisor. */
  predicate Undecided(v: View) {
    EntryIs(v, {PendingUpgrade}, false) && NoTask(v) && v.observed == v.consumed == v.removed == 0
  }

  function Racing(r: Racer): nat {
    if r.Won? || r.Cleared? then 1 else 0
  }

  function Finishers(u: Upgrade): nat {
    Racing(u.failed) + Racing(u.dropped) + if u.callback.WonTerminal? || u.callback.ClearedSlot? then 1 else 0
  }

  predicate TerminalPhase(v: View) {
    && !v.u.callback.WonActivation? && !v.u.callback.CarriesPermit? && !v.u.callback.SawActivated?
    && NoTask(v) && v.observed == 0
    && v.u.slot == (v.u.callback.WonTerminal? || v.u.failed.Won? || v.u.dropped.Won?)
    && if Finishers(v.u) == 1 then
         Undecided(v) && v.events == []
       else
         && Finishers(v.u) == 0
         && (|| (Undecided(v) && |v.events| == 1 && v.events[0].UpgradeCompleted?)
             || (v.entry == None && v.events == [] && v.consumed == v.removed == 1))
  }

  /** The callback event, once sent and until observed. */
  predicate CallbackPending(v: View, events: seq<Event>) {
    if v.u.callback == Done && v.observed == 0
    then |events| == 1 && events[0].CallbackCompleted?
    else events == []
  }

  ghost predicate ActivatedPhase(v: View) {
    && v.u.failed in {Waiting, Gone} && v.u.dropped in {Waiting, Gone}
    && v.u.slot == v.u.callback.WonActivation?
    && match v.u.callback
       case WonActivation => Undecided(v) && v.events == []
       case CarriesPermit => Undecided(v) && v.events == []
       case Returning => AfterActivation(v)
       case LostRace(_) => AfterActivation(v)
       case SawActivated(_) => AfterActivation(v)
       case Done => AfterActivation(v)
       case _ => false
  }

  ghost predicate AfterActivation(v: View) {
    && v.observed <= (if v.u.callback == Done then 1 else 0)
    && (|| (Undecided(v) && v.events != [] && v.events[0].Activate? && CallbackPending(v, v.events[1..]))
        || (&& EntryIs(v, {Active, Closing}, v.observed == 1) && OneTask(v)
            && CallbackPending(v, v.events) && v.consumed == v.removed == 0)
        || (&& EntryIs(v, {Finished}, false) && NoTask(v) && v.observed == 0
            && CallbackPending(v, v.events) && v.consumed == 1 && v.removed == 0)
        || (v.entry == None && NoTask(v) && v.events == [] && v.observed == v.consumed == v.removed == 1))
  }

  ghost predicate Phase(v: View) {
    match v.u.stage
    case Pending =>
      v.u.slot && v.u.callback in {Idle, Running} && v.u.failed == v.u.dropped == Waiting && Undecided(v)
      && v.events == []
    case Terminal => TerminalPhase(v)
    case Activated => ActivatedPhase(v)
  }

  /** Where a reservation's permit can be: its slot, the callback's hands, a queued activation, a live task. */
  predicate Holds(v: View) {
    v.u.slot || v.u.callback.CarriesPermit? || (v.events != [] && v.events[0].Activate?) || v.live != {}
  }

  function Holders(s: State): set<Id> {
    set id | id in s.upgrades && Holds(ViewOf(s, id))
  }

  function ConsumedIds(ids: set<Id>, consumed: multiset<Id>): set<Id> {
    set id | id in ids && id in consumed
  }

  predicate HasId(r: Reserver) {
    r.Issued? || r.Locked?
  }

  function InFlight(reservers: map<nat, Reserver>): set<nat> {
    set r | r in reservers && HasId(reservers[r])
  }

  predicate QueueLinked(q: seq<Event>, ids: set<Id>) {
    forall e :: e in q && !e.Stop? ==> e.id in ids
  }

  predicate TasksLinked(d: Desk, ids: set<Id>) {
    && d.taskConnections.Keys == d.tasks.Keys
    && (forall t :: t in d.tasks ==> t < d.nextTask && d.tasks[t].id in ids && d.taskConnections[t] == d.tasks[t].id)
    && (d.pc.Joined? ==> d.pc.id in ids)
  }

  ghost predicate IdsLinked(r: Registry, l: Log, ids: set<Id>) {
    && 1 <= r.nextId
    && r.entries.Keys <= ids
    && (forall id :: id in ids ==> 1 <= id < r.nextId)
    && (forall id :: id in l.observed || id in l.consumed || id in l.removed ==> id in ids)
  }

  predicate ReserversLinked(q: Requests, nextId: nat, ids: set<Id>) {
    && (forall r :: r in q.at && HasId(q.at[r]) ==> 1 <= q.at[r].id < nextId && q.at[r].id !in ids)
    && (forall r, p :: r in q.at && p in q.at && r != p && HasId(q.at[r]) && HasId(q.at[p]) ==> q.at[r].id != q.at[p].id)
    && (forall r :: r in q.at ==> (q.at[r].Locked? <==> q.lock == Some(r)))
    && (q.lock.Some? ==> q.lock.value in q.at)
  }

  /** Once the supervisor has closed the entries after stopping admission, no insertion can follow. */
  predicate Sealed(r: Registry, lock: Option<nat>, d: Desk) {
    && (d.stopping ==> !r.accepting)
    && (d.stopping && !d.pc.ClosingAll? ==> d.sealed)
    && (d.sealed ==> d.stopping && lock == None)
    && (d.pc.ClosingAll? ==> d.stopping)
    && (d.pc.Returned? ==> d.stopping && r.entries == map[] && d.tasks == map[])
  }

  predicate Unharmed(l: Log) {
    !l.failure && !l.refused && !l.permitMissing
  }

  ghost predicate Linked(s: State) {
    && QueueLinked(Queue(s.desk.pc, s.channel), s.upgrades.Keys)
    && TasksLinked(s.desk, s.upgrades.Keys)
    && IdsLinked(s.reg, s.log, s.upgrades.Keys)
    && ReserversLinked(s.requests, s.reg.nextId, s.upgrades.Keys)
    && Sealed(s.reg, s.requests.lock, s.desk)
    && Unharmed(s.log)
  }

  ghost predicate Phases(s: State) {
    forall id :: id in s.upgrades ==> Phase(ViewOf(s, id))
  }

  predicate Counted(s: State) {
    && s.reg.completions == |ConsumedIds(s.upgrades.Keys, s.log.consumed)|
    && s.reg.nextId - 1 == s.requests.burned + |InFlight(s.requests.at)| + |s.upgrades.Keys|
    && s.requests.available + |s.requests.at| + |Holders(s)| == PERMITS
  }

  ghost predicate Inv(s: State) {
    Linked(s) && Phases(s) && Counted(s)
  }

  lemma InitialInv()
    ensures Inv(INITIAL)
  {
  }

  lemma {:induction false} EventsForConcat(q: seq<Event>, p: seq<Event>, id: Id)
    ensures EventsFor(q + p, id) == EventsFor(q, id) + EventsFor(p, id)
  {
    if q == [] {
      assert q + p == p;
    } else {
      assert (q + p)[1..] == q[1..] + p;
      EventsForConcat(q[1..], p, id);
    }
  }

  lemma {:induction false} EventsForAbsent(q: seq<Event>, id: Id)
    requires forall e :: e in q && !e.Stop? ==> e.id != id
    ensures EventsFor(q, id) == []
  {
    if q != [] {
      EventsForAbsent(q[1..], id);
    }
  }

  lemma {:induction false} EventsForMember(q: seq<Event>, id: Id, e: Event)
    requires e in q && !e.Stop? && e.id == id
    ensures e in EventsFor(q, id)
  {
    if q[0] != e {
      EventsForMember(q[1..], id, e);
    }
  }

  /** Two sets that agree everywhere but at `id`. */
  lemma CardStep(a: set<Id>, b: set<Id>, id: Id)
    requires forall i :: i != id ==> (i in a <==> i in b)
    ensures |b| == |a| + (if id in b then 1 else 0) - (if id in a then 1 else 0)
  {
    var common := a - {id};
    assert common == b - {id};
    assert a == if id in a then common + {id} else common;
    assert b == if id in b then common + {id} else common;
  }

  /** Outside `id`, every view is what it was. */
  ghost predicate SameElsewhere(s: State, t: State, id: Id) {
    && t.upgrades.Keys == s.upgrades.Keys
    && forall i :: i in s.upgrades && i != id ==> i in t.upgrades && ViewOf(t, i) == ViewOf(s, i)
  }

  /** The ids holding permits, counted after the view of one id has changed. */
  lemma HoldersStep(s: State, t: State, id: Id)
    requires SameElsewhere(s, t, id) && id in s.upgrades
    ensures |Holders(t)| == |Holders(s)| + (if Holds(ViewOf(t, id)) then 1 else 0) - (if Holds(ViewOf(s, id)) then 1 else 0)
  {
    var a, b := Holders(s), Holders(t);
    forall i | i != id ensures i in a <==> i in b {
      assert i in s.upgrades <==> i in t.upgrades;
      if i in s.upgrades {
        assert ViewOf(t, i) == ViewOf(s, i);
      }
    }
    CardStep(a, b, id);
  }

  lemma ConsumedStep(s: State, t: State, id: Id)
    requires SameElsewhere(s, t, id) && id in s.upgrades
    ensures |ConsumedIds(t.upgrades.Keys, t.log.consumed)| ==
            |ConsumedIds(s.upgrades.Keys, s.log.consumed)|
            + (if id in t.log.consumed then 1 else 0) - (if id in s.log.consumed then 1 else 0)
  {
    var a, b := ConsumedIds(s.upgrades.Keys, s.log.consumed), ConsumedIds(t.upgrades.Keys, t.log.consumed);
    forall i | i != id ensures i in a <==> i in b {
      if i in s.upgrades {
        assert ViewOf(t, i).consumed == ViewOf(s, i).consumed;
      }
    }
    CardStep(a, b, id);
  }

  lemma PhasesStep(s: State, t: State, id: Id)
    requires Phases(s) && SameElsewhere(s, t, id) && id in s.upgrades && Phase(ViewOf(t, id))
    ensures Phases(t)
  {
  }

  /** One action's effect on the invariant when it touches a single id and leaves reservers and ids alone. */
  lemma LocalStep(s: State, t: State, id: Id)
    requires Inv(s) && Linked(t) && SameElsewhere(s, t, id) && id in s.upgrades && Phase(ViewOf(t, id))
    requires t.requests.at == s.requests.at && t.requests.burned == s.requests.burned && t.reg.nextId == s.reg.nextId
    requires t.reg.completions ==
             s.reg.completions + (if id in t.log.consumed then 1 else 0) - (if id in s.log.consumed then 1 else 0)
    requires t.requests.available + (if Holds(ViewOf(t, id)) then 1 else 0) ==
             s.requests.available + (if Holds(ViewOf(s, id)) then 1 else 0)
    ensures Inv(t)
  {
    assert Counted(t) by {
      HoldersStep(s, t, id);
      ConsumedStep(s, t, id);
    }
    PhasesStep(s, t, id);
  }

  /** Actions that consume nothing and move no permit of an upgrade. */
  lemma GlobalStep(s: State, t: State)
    requires Inv(s) && Linked(t) && Phases(t)
    requires t.upgrades.Keys == s.upgrades.Keys && t.log.consumed == s.log.consumed
             && t.reg.completions == s.reg.completions
    requires forall i :: i in s.upgrades ==> i in t.upgrades && Holds(ViewOf(t, i)) == Holds(ViewOf(s, i))
    requires t.reg.nextId - t.requests.burned - |InFlight(t.requests.at)| ==
             s.reg.nextId - s.requests.burned - |InFlight(s.requests.at)|
    requires t.requests.available + |t.requests.at| == s.requests.available + |s.requests.at|
    ensures Inv(t)
  {
    assert Holders(t) == Holders(s);
  }

  /** Actions that change no view. */
  lemma SameViews(s: State, t: State)
    requires Inv(s) && Linked(t)
    requires t.upgrades == s.upgrades && t.log == s.log && t.reg.entries == s.reg.entries
    requires t.reg.completions == s.reg.completions && t.desk.tasks == s.desk.tasks
    requires forall i :: EventsFor(Queue(t.desk.pc, t.channel), i) == EventsFor(Queue(s.desk.pc, s.channel), i)
    requires forall i :: JoinedTo(t.desk.pc, i) == JoinedTo(s.desk.pc, i)
    requires t.reg.nextId - t.requests.burned - |InFlight(t.requests.at)| ==
             s.reg.nextId - s.requests.burned - |InFlight(s.requests.at)|
    requires t.requests.available + |t.requests.at| == s.requests.available + |s.requests.at|
    ensures Inv(t)
  {
    forall i | i in s.upgrades ensures ViewOf(t, i) == ViewOf(s, i) {
      assert EntryOf(t.reg, i) == EntryOf(s.reg, i);
    }
    assert Phases(t) by {
      forall i | i in t.upgrades ensures Phase(ViewOf(t, i)) {
        assert Phase(ViewOf(s, i));
      }
    }
    GlobalStep(s, t);
  }
}
