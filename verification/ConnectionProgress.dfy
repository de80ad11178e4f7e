/** From every reachable state an entry can leave, and the supervisor can return. */
module ConnectionProgress {
  import opened Prelude
  import opened ConnectionRegistry
  import opened ConnectionProtocol
  import opened ConnectionInvariant
  import opened ConnectionTheorems

  // ----- measures -----

  function CallbackRank(c: Callback): nat {
    match c
    case Idle => 9
    case Running => 8
    case WonActivation => 7
    case CarriesPermit => 6
    case Returning => 5
    case WonTerminal(_) => 4
    case ClearedSlot(_) => 3
    case LostRace(_) => 3
    case SawActivated(_) => 2
    case Done => 0
  }

  function RacerRank(r: Racer): nat {
    if r.Won? then 2 else if r.Cleared? then 1 else 0
  }

  /** What the parties of an upgrade have left to do. */
  function UpgradeRank(u: Upgrade): nat {
    CallbackRank(u.callback) + RacerRank(u.failed) + RacerRank(u.dropped)
  }

  function SupervisorRank(pc: Supervisor): nat {
    match pc
    case Handling(_) => 3
    case ClosingAll(_) => 2
    case CancellingAll => 1
    case _ => 0
  }

  /** What the supervisor has left to do before it loops on an empty channel. */
  function DeskRank(s: State): nat {
    4 * |s.channel| + SupervisorRank(s.desk.pc)
  }

  function TaskRank(s: State, id: Id): nat {
    2 * |TasksOf(s.desk.tasks, id, true)| + |TasksOf(s.desk.tasks, id, false)|
  }

  // ----- the supervisor -----

  /** The supervisor has seen a stop, or will. */
  ghost predicate Stopped(s: State) {
    s.desk.stopping || exists e :: e in Queue(s.desk.pc, s.channel) && e.Stop?
  }

  /** Nothing took the lock or added an entry, and a stop is not forgotten. */
  ghost predicate Calmer(s: State, t: State) {
    && (s.requests.lock == None ==> t.requests.lock == None) && t.reg.entries.Keys <= s.reg.entries.Keys
    && t.upgrades.Keys == s.upgrades.Keys
    && (Stopped(s) ==> Stopped(t)) && (s.desk.pc.Returned? <==> t.desk.pc.Returned?)
  }

  lemma DecidedShrinks(r: Registry, id: Id, callback: CallbackOutcome, terminal: TerminalOutcome, panicked: bool)
    ensures r.MarkActive(id).reg.entries.Keys <= r.entries.Keys
    ensures r.ObserveCallback(id, callback).reg.entries.Keys <= r.entries.Keys
    ensures r.ObserveTerminal(id, terminal).reg.entries.Keys <= r.entries.Keys
    ensures r.ObserveCompletion(id, panicked).reg.entries.Keys <= r.entries.Keys
  {
  }

  lemma HandleShrinks(s: State, e: Event)
    ensures HandleEvent(s, e).reg.entries.Keys <= s.reg.entries.Keys && HandleEvent(s, e).upgrades == s.upgrades
    ensures HandleEvent(s, e).requests.lock == s.requests.lock && HandleEvent(s, e).channel == s.channel
    ensures HandleEvent(s, e).desk.pc == if e.Stop? then ClosingAll(e.abort) else Looping
    ensures HandleEvent(s, e).desk.stopping == (s.desk.stopping || e.Stop?)
  {
    if !e.Stop? {
      DecidedShrinks(s.reg, e.id, if e.CallbackCompleted? then e.callback else CallbackReturned,
                     if e.UpgradeCompleted? then e.terminal else TerminalOutcome.Failed, false);
    }
  }

  lemma StopStays(s: State, t: State)
    requires s.desk.stopping ==> t.desk.stopping
    requires forall e :: e in Queue(s.desk.pc, s.channel) && e.Stop? ==> t.desk.stopping || e in Queue(t.desk.pc, t.channel)
    ensures Stopped(s) ==> Stopped(t)
  {
  }

  lemma HandleCalmer(s: State)
    requires Enabled(s, Handle)
    ensures var t := Apply(s, Handle);
            Calmer(s, t) && t.upgrades == s.upgrades && t.requests.lock == s.requests.lock && DeskRank(t) < DeskRank(s)
  {
    HandleShrinks(s, s.desk.pc.event);
    StopStays(s, Apply(s, Handle));
  }

  lemma ReceiveCalmer(s: State)
    requires Enabled(s, Receive)
    ensures var t := Apply(s, Receive);
            Calmer(s, t) && t.upgrades == s.upgrades && t.requests.lock == s.requests.lock && DeskRank(t) < DeskRank(s)
  {
    var t := Apply(s, Receive);
    assert Queue(t.desk.pc, t.channel) == s.channel == Queue(s.desk.pc, s.channel);
  }

  predicate Quiet(a: Action) {
    a.CloseAll? || a.CancelAll? || a.ObserveJoined? || a.EndTask? || a.Join?
  }

  lemma QuietCalmer(s: State, a: Action)
    requires Enabled(s, a) && Quiet(a)
    ensures var t := Apply(s, a);
            && Calmer(s, t) && t.upgrades == s.upgrades && t.requests.lock == s.requests.lock
            && (if a.CloseAll? || a.CancelAll? then DeskRank(t) < DeskRank(s) else DeskRank(t) == DeskRank(s))
  {
    var t := Apply(s, a);
    assert Queue(t.desk.pc, t.channel) == Queue(s.desk.pc, s.channel);
    if a.ObserveJoined? {
      DecidedShrinks(s.reg, s.desk.pc.id, CallbackReturned, TerminalOutcome.Failed, s.desk.pc.panicked);
    }
  }

  lemma CalmerTwice(s: State, m: State, t: State)
    requires Calmer(s, m) && Calmer(m, t)
    ensures Calmer(s, t)
  {
  }

  /** The supervisor finishes what it is at, with the lock free. */
  lemma DeskMove(s: State) returns (a: Action)
    requires s.requests.lock == None && s.desk.pc != Looping && !s.desk.pc.Returned?
    ensures Enabled(s, a) && (a.Handle? || a.CloseAll? || a.CancelAll? || a.ObserveJoined?)
  {
    a := match s.desk.pc
      case Handling(_) => Handle
      case ClosingAll(_) => CloseAll
      case CancellingAll => CancelAll
      case _ => ObserveJoined;
  }

  /** The lock is free, and the supervisor loops on an empty channel. */
  predicate Settled(s: State) {
    s.requests.lock == None && s.desk.pc == Looping && s.channel == []
  }

  ghost predicate Reachable(s: State) {
    exists run :: Valid(INITIAL, run) && Final(INITIAL, run) == s
  }

  lemma ReachableInv(s: State)
    requires Reachable(s)
    ensures Inv(s)
  {
    var run :| Valid(INITIAL, run) && Final(INITIAL, run) == s;
    InitialInv();
    RunKeeps(INITIAL, run);
  }

  /** A valid continuation that adds no entry. */
  ghost predicate Leads(s: State, more: seq<Action>, t: State) {
    Valid(s, more) && t == Final(s, more) && Calmer(s, t)
  }

  lemma LeadsOn(s: State, x: seq<Action>, m: State, y: seq<Action>, t: State)
    requires Leads(s, x, m) && Leads(m, y, t)
    ensures Leads(s, x + y, t)
  {
    RunConcat(s, x, y);
    CalmerTwice(s, m, t);
  }

  lemma LeadsOne(s: State, a: Action)
    requires Enabled(s, a) && Calmer(s, Apply(s, a))
    ensures Leads(s, [a], Apply(s, a))
  {
    FinalOne(s, a);
  }

  lemma FinalOne(s: State, a: Action)
    requires Enabled(s, a)
    ensures Valid(s, [a]) && Final(s, [a]) == Apply(s, a)
  {
    assert [a][1..] == [];
    assert Valid(Apply(s, a), []) && Final(Apply(s, a), []) == Apply(s, a);
  }

  lemma ReachableOn(s: State, more: seq<Action>)
    requires Reachable(s) && Valid(s, more)
    ensures Reachable(Final(s, more))
  {
    var run :| Valid(INITIAL, run) && Final(INITIAL, run) == s;
    RunConcat(INITIAL, run, more);
  }

  lemma ReachableNext(s: State, a: Action)
    requires Reachable(s) && Enabled(s, a)
    ensures Reachable(Apply(s, a))
  {
    FinalOne(s, a);
    ReachableOn(s, [a]);
  }

  /** The supervisor's next move towards an empty channel. */
  lemma SettleMove(s: State) returns (a: Action)
    requires s.requests.lock == None && !s.desk.pc.Returned? && !Settled(s)
    ensures Enabled(s, a)
    ensures var t := Apply(s, a);
            && Calmer(s, t) && t.upgrades == s.upgrades && t.requests.lock == None
            && (DeskRank(t) < DeskRank(s) || (DeskRank(t) == DeskRank(s) && s.desk.pc.Joined? && !t.desk.pc.Joined?))
  {
    if s.desk.pc == Looping {
      a := Receive;
      ReceiveCalmer(s);
    } else {
      a := DeskMove(s);
      if a == Handle {
        HandleCalmer(s);
      } else {
        QuietCalmer(s, a);
      }
    }
  }

  /** The supervisor can empty its channel and loop, without anyone else moving. */
  lemma {:induction false} Settle(s: State) returns (more: seq<Action>, t: State)
    requires Reachable(s) && s.requests.lock == None && !s.desk.pc.Returned?
    ensures Leads(s, more, t) && Reachable(t) && Settled(t) && t.upgrades == s.upgrades
    decreases DeskRank(s), if s.desk.pc.Joined? then 1 else 0
  {
    if Settled(s) {
      return [], s;
    }
    var a := SettleMove(s);
    ReachableNext(s, a);
    more, t := Settle(Apply(s, a));
    LeadsOne(s, a);
    LeadsOn(s, [a], Apply(s, a), more, t);
    more := [a] + more;
  }

  // ----- one entry -----

  lemma OperateCalmer(s: State, id: Id, op: Op)
    requires Enabled(s, Operate(id, op)) && !s.desk.pc.Returned?
    ensures var t := Apply(s, Operate(id, op));
            Calmer(s, t) && t.requests.lock == s.requests.lock && t.upgrades == s.upgrades[id := Advance(s.upgrades[id], op)]
  {
    StopStays(s, Apply(s, Operate(id, op)));
  }

  /** A party of an undecided or unobserved upgrade can move, and has less to do then. */
  lemma PartyMove(v: View) returns (op: Op)
    requires Phase(v) && v.entry.Some? && v.events == [] && v.live == v.ended == {} && !v.joined
    ensures Ready(v.u, op) && UpgradeRank(Advance(v.u, op)) < UpgradeRank(v.u)
  {
    if v.u.failed.Won? { return FailClear; }
    if v.u.failed.Cleared? { return FailSend; }
    if v.u.dropped.Won? { return DropClear; }
    if v.u.dropped.Cleared? { return DropSend; }
    op := match v.u.callback
      case Idle => StartCallback
      case Running => TryActivate
      case WonActivation => TakePermit
      case CarriesPermit => SendActivate
      case Returning => FinishCallback(false)
      case WonTerminal(_) => ClearSlot
      case ClearedSlot(_) => SendFinished
      case LostRace(_) => LoadStage
      case SawActivated(_) => SendReturned
      case Done => LoadStage;
  }

  lemma ReachablePhase(s: State, id: Id)
    requires Reachable(s) && id in s.upgrades
    ensures Phase(ViewOf(s, id))
  {
    ReachableInv(s);
  }

  lemma EntryMove(s: State, id: Id) returns (op: Op)
    requires Reachable(s) && Settled(s) && id in s.reg.entries && id in s.upgrades
    requires TasksOf(s.desk.tasks, id, true) == TasksOf(s.desk.tasks, id, false) == {}
    ensures Enabled(s, Operate(id, op)) && UpgradeRank(Advance(s.upgrades[id], op)) < UpgradeRank(s.upgrades[id])
  {
    ReachablePhase(s, id);
    assert Queue(s.desk.pc, s.channel) == [];
    op := PartyMove(ViewOf(s, id));
  }

  lemma OperateAndSettle(s: State, id: Id, op: Op) returns (more: seq<Action>, t: State)
    requires Reachable(s) && Settled(s) && Enabled(s, Operate(id, op))
    ensures Leads(s, more, t) && Reachable(t) && Settled(t) && t.upgrades == s.upgrades[id := Advance(s.upgrades[id], op)]
  {
    var a := Operate(id, op);
    OperateCalmer(s, id, op);
    ReachableNext(s, a);
    more, t := Settle(Apply(s, a));
    LeadsOne(s, a);
    LeadsOn(s, [a], Apply(s, a), more, t);
    more := [a] + more;
  }

  lemma EndRank(s: State, id: Id, t: nat)
    requires t in TasksOf(s.desk.tasks, id, true)
    ensures TaskRank(TaskEnded(s, t, Completed), id) < TaskRank(s, id)
  {
    var now := TaskEnded(s, t, Completed).desk.tasks;
    assert TasksOf(now, id, true) == TasksOf(s.desk.tasks, id, true) - {t};
    assert TasksOf(now, id, false) == TasksOf(s.desk.tasks, id, false) + {t};
  }

  lemma JoinRank(tasks: map<nat, Task>, id: Id, t: nat)
    requires t in TasksOf(tasks, id, false)
    ensures TasksOf(tasks - {t}, id, true) == TasksOf(tasks, id, true)
    ensures |TasksOf(tasks - {t}, id, false)| < |TasksOf(tasks, id, false)|
  {
    assert TasksOf(tasks - {t}, id, false) == TasksOf(tasks, id, false) - {t};
  }

  /** A task that has ended is joined, and its completion observed. */
  lemma JoinAndObserve(s: State, id: Id, n: nat) returns (more: seq<Action>, t: State)
    requires Reachable(s) && Settled(s) && n in TasksOf(s.desk.tasks, id, false) && n in s.desk.taskConnections
    ensures Leads(s, more, t) && Reachable(t) && Settled(t) && t.upgrades == s.upgrades && TaskRank(t, id) < TaskRank(s, id)
  {
    var m := Apply(s, Join(n));
    QuietCalmer(s, Join(n));
    LeadsOne(s, Join(n));
    ReachableNext(s, Join(n));
    t := Apply(m, ObserveJoined);
    QuietCalmer(m, ObserveJoined);
    LeadsOne(m, ObserveJoined);
    ReachableNext(m, ObserveJoined);
    LeadsOn(s, [Join(n)], m, [ObserveJoined], t);
    more := [Join(n)] + [ObserveJoined];
    JoinRank(s.desk.tasks, id, n);
  }

  lemma TasksConnected(s: State)
    requires Reachable(s)
    ensures s.desk.taskConnections.Keys == s.desk.tasks.Keys && s.reg.entries.Keys <= s.upgrades.Keys
  {
    ReachableInv(s);
  }

  /** One round: a task ends, or is joined, or a party moves and the supervisor deals with it. */
  lemma Round(s: State, id: Id) returns (more: seq<Action>, t: State)
    requires Reachable(s) && Settled(s) && id in s.reg.entries && id in s.upgrades
    ensures Leads(s, more, t) && Reachable(t) && Settled(t) && id in t.upgrades
    ensures || UpgradeRank(t.upgrades[id]) < UpgradeRank(s.upgrades[id])
            || (t.upgrades == s.upgrades && TaskRank(t, id) < TaskRank(s, id))
  {
    TasksConnected(s);
    if n :| n in TasksOf(s.desk.tasks, id, true) {
      var a := EndTask(n, Completed);
      more, t := [a], Apply(s, a);
      QuietCalmer(s, a);
      LeadsOne(s, a);
      ReachableNext(s, a);
      EndRank(s, id, n);
    } else if n :| n in TasksOf(s.desk.tasks, id, false) {
      more, t := JoinAndObserve(s, id, n);
    } else {
      var op := EntryMove(s, id);
      more, t := OperateAndSettle(s, id, op);
    }
  }

  /** From a settled state an entry can be driven out. */
  lemma {:induction false} Drain(s: State, id: Id) returns (more: seq<Action>, t: State)
    requires Reachable(s) && Settled(s) && id in s.upgrades
    ensures Leads(s, more, t) && Reachable(t) && Settled(t) && id !in t.reg.entries
    decreases if id in s.upgrades then UpgradeRank(s.upgrades[id]) else 0, TaskRank(s, id)
  {
    if id !in s.reg.entries {
      return [], s;
    }
    var first, m := Round(s, id);
    more, t := Drain(m, id);
    LeadsOn(s, first, m, more, t);
    more := first + more;
  }

  // ----- all entries -----

  lemma Subset(a: set<Id>, b: set<Id>)
    requires a <= b
    ensures |a| <= |b|
  {
    assert b == a + (b - a);
  }

  lemma FewerEntries(x: map<Id, Ownership>, y: map<Id, Ownership>, id: Id)
    requires id in x && y.Keys <= x.Keys - {id}
    ensures |y| < |x|
  {
    Subset(y.Keys, x.Keys - {id});
    assert |y| == |y.Keys| && |x| == |x.Keys|;
  }

  /** All entries can be driven out, one by one. */
  lemma {:induction false} DrainAll(s: State) returns (more: seq<Action>, t: State)
    requires Reachable(s) && Settled(s)
    ensures Leads(s, more, t) && Reachable(t) && Settled(t) && t.reg.entries == map[]
    decreases |s.reg.entries|
  {
    if s.reg.entries == map[] {
      return [], s;
    }
    var id :| id in s.reg.entries;
    TasksConnected(s);
    var first, m := Drain(s, id);
    FewerEntries(s.reg.entries, m.reg.entries, id);
    more, t := DrainAll(m);
    LeadsOn(s, first, m, more, t);
    more := first + more;
  }

  // ----- from anywhere -----

  /** Whoever holds the lock inserts its entry and lets it go. */
  lemma Unlock(s: State) returns (more: seq<Action>)
    requires Reachable(s) && !s.desk.pc.Returned?
    ensures Valid(s, more)
    ensures var t := Final(s, more);
            && Reachable(t) && t.requests.lock == None && t.desk == s.desk && t.channel == s.channel
            && s.upgrades.Keys <= t.upgrades.Keys
  {
    more := [];
    if s.requests.lock.Some? {
      var a := InsertEntry(s.requests.lock.value);
      ReachableInv(s);
      FinalOne(s, a);
      ReachableNext(s, a);
      more := [a];
    }
  }

  /** However a run has gone, it can go on so that an entry leaves the registry. */
  lemma EntryCanLeave(run: seq<Action>, id: Id) returns (more: seq<Action>)
    requires Valid(INITIAL, run) && id in Final(INITIAL, run).reg.entries
    ensures var s := Final(INITIAL, run); Valid(s, more) && id !in Final(s, more).reg.entries
  {
    var s := Final(INITIAL, run);
    TasksConnected(s);
    NotReturned(s);
    var first := Unlock(s);
    var m := Final(s, first);
    var second, n := Settle(m);
    var third, t := Drain(n, id);
    LeadsOn(m, second, n, third, t);
    RunConcat(s, first, second + third);
    more := first + (second + third);
  }

  lemma NotReturned(s: State)
    requires Reachable(s) && s.reg.entries != map[]
    ensures !s.desk.pc.Returned?
  {
    ReachableInv(s);
  }

  lemma GoneTasks(v: View)
    requires Phase(v) && v.entry == None
    ensures v.live == v.ended == {}
  {
  }

  lemma NoTasks(tasks: map<nat, Task>, ids: set<Id>)
    requires forall t :: t in tasks ==> tasks[t].id in ids
    requires forall id :: id in ids ==> TasksOf(tasks, id, true) == TasksOf(tasks, id, false) == {}
    ensures tasks == map[]
  {
    assert forall t :: t in tasks ==> t in TasksOf(tasks, tasks[t].id, tasks[t].running);
  }

  lemma EmptyRegistry(s: State)
    requires Reachable(s) && s.reg.entries == map[]
    ensures s.desk.tasks == map[]
  {
    ReachableInv(s);
    forall id | id in s.upgrades.Keys
      ensures TasksOf(s.desk.tasks, id, true) == TasksOf(s.desk.tasks, id, false) == {}
    {
      GoneTasks(ViewOf(s, id));
    }
    NoTasks(s.desk.tasks, s.upgrades.Keys);
  }

  lemma StopSent(s: State)
    requires !s.desk.pc.Returned?
    ensures var t := Apply(s, SendStop(false)); Stopped(t) && !t.desk.pc.Returned?
  {
    var t := Apply(s, SendStop(false));
    assert t.channel[|t.channel| - 1] == Stop(false);
    assert Stop(false) in Queue(t.desk.pc, t.channel);
  }

  /** Once it has seen a stop, the supervisor can be brought to return. */
  lemma ReturnFrom(s: State) returns (more: seq<Action>)
    requires Reachable(s) && Stopped(s) && !s.desk.pc.Returned? && s.requests.lock == None
    ensures Valid(s, more) && Final(s, more).desk.pc.Returned?
  {
    var first, m := Settle(s);
    var second, t := DrainAll(m);
    EmptyRegistry(t);
    LeadsOn(s, first, m, second, t);
    assert Queue(t.desk.pc, t.channel) == [];
    FinalOne(t, Return);
    RunConcat(s, first + second, [Return]);
    more := first + second + [Return];
  }

  /** However a run has gone, the supervisor can still be brought to return. */
  lemma SupervisorCanReturn(run: seq<Action>) returns (more: seq<Action>)
    requires Valid(INITIAL, run)
    ensures var s := Final(INITIAL, run); Valid(s, more) && Final(s, more).desk.pc.Returned?
  {
    var s := Final(INITIAL, run);
    if s.desk.pc.Returned? {
      return [];
    }
    var a := SendStop(false);
    StopSent(s);
    FinalOne(s, a);
    ReachableNext(s, a);
    var b := Apply(s, a);
    var first := Unlock(b);
    var rest := ReturnFrom(Final(b, first));
    RunConcat(b, first, rest);
    RunConcat(s, [a], first + rest);
    more := [a] + (first + rest);
  }
}
