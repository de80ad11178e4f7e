/** Where the supervisor's events come from, and who is admitted. */
module ConnectionOrigins {
  import opened Prelude
  import opened ConnectionRegistry
  import opened ConnectionProtocol
  import opened ConnectionInvariant
  import opened ConnectionTheorems
  import opened ConnectionProgress
  import opened ConnectionHistory

  // ----- events -----

  /** What a party of the upgrade did, that an event tells of. */
  function Cause(e: Event): Action {
    match e
    case Activate(id) => Operate(id, TryActivate)
    case CallbackCompleted(id, outcome) => Operate(id, FinishCallback(outcome == CallbackRaised))
    case UpgradeCompleted(id, outcome) =>
      (match outcome
       case Failed => Operate(id, FailUpgrade)
       case Cancelled => Operate(id, DropRecord(false))
       case Panicked => Operate(id, DropRecord(true))
       case CallbackCancelled => Operate(id, FinishCallback(false))
       case CallbackPanicked => Operate(id, FinishCallback(true)))
    case Stop(abort) => SendStop(abort)
  }

  predicate RacerTrue(run: seq<Action>, id: Id, r: Racer) {
    r.Won? || r.Cleared? ==> Cause(UpgradeCompleted(id, r.outcome)) in run
  }

  /** What the parties of an upgrade have in hand is what they did. */
  predicate UpgradeTrue(run: seq<Action>, id: Id, u: Upgrade) {
    && (u.failed.Won? || u.failed.Cleared? ==> u.failed.outcome == TerminalOutcome.Failed)
    && (u.dropped.Won? || u.dropped.Cleared? ==> u.dropped.outcome in {TerminalOutcome.Cancelled, TerminalOutcome.Panicked})
    && RacerTrue(run, id, u.failed) && RacerTrue(run, id, u.dropped)
    && match u.callback
       case WonActivation => Operate(id, TryActivate) in run
       case CarriesPermit => Operate(id, TryActivate) in run
       case WonTerminal(panicked) => Operate(id, FinishCallback(panicked)) in run
       case ClearedSlot(panicked) => Operate(id, FinishCallback(panicked)) in run
       case LostRace(panicked) => Operate(id, FinishCallback(panicked)) in run
       case SawActivated(panicked) => Operate(id, FinishCallback(panicked)) in run
       case _ => true
  }

  predicate TaskTrue(run: seq<Action>, n: nat, task: Task) {
    !task.running ==> EndTask(n, task.outcome) in run
  }

  /** Some task ended as a joined one is reported. */
  ghost predicate ReportTrue(run: seq<Action>, r: Report) {
    exists n, outcome :: EndTask(n, outcome) in run && r.panicked == (outcome == Raised)
  }

  ghost predicate Truthful(run: seq<Action>, s: State, h: History) {
    && (forall id :: id in s.upgrades ==> UpgradeTrue(run, id, s.upgrades[id]))
    && (forall e :: e in h.sent ==> Cause(e) in run)
    && (forall n :: n in s.desk.tasks ==> TaskTrue(run, n, s.desk.tasks[n]))
    && (s.desk.pc.Joined? ==> ReportTrue(run, Report(s.desk.pc.id, s.desk.pc.panicked)))
    && (forall r :: r in h.reports ==> ReportTrue(run, r))
  }

  lemma UpgradeLonger(run: seq<Action>, a: Action, id: Id, u: Upgrade)
    requires UpgradeTrue(run, id, u)
    ensures UpgradeTrue(run + [a], id, u)
  {
  }

  lemma AdvanceTrue(run: seq<Action>, id: Id, u: Upgrade, op: Op)
    requires UpgradeTrue(run, id, u) && Ready(u, op)
    ensures UpgradeTrue(run + [Operate(id, op)], id, Advance(u, op))
    ensures forall e :: e in Emitted(u, id, op) ==> Cause(e) in run
  {
    UpgradeLonger(run, Operate(id, op), id, u);
  }

  lemma UpgradesTrue(run: seq<Action>, s: State, h: History, a: Action, id: Id)
    requires Truthful(run, s, h) && Enabled(s, a) && id in Apply(s, a).upgrades
    ensures UpgradeTrue(run + [a], id, Apply(s, a).upgrades[id])
  {
    if a.Operate? && a.id == id {
      AdvanceTrue(run, id, s.upgrades[id], a.op);
    } else if a.InsertEntry? && s.requests.at[a.r].id == id {
    } else {
      SameUpgrade(s, a, id);
      UpgradeLonger(run, a, id, s.upgrades[id]);
    }
  }

  lemma SameUpgrade(s: State, a: Action, id: Id)
    requires Enabled(s, a) && id in Apply(s, a).upgrades
    requires !(a.Operate? && a.id == id) && !(a.InsertEntry? && s.requests.at[a.r].id == id)
    ensures id in s.upgrades && Apply(s, a).upgrades[id] == s.upgrades[id]
  {
    if a.Handle? {
      HandlingReservesNothing(s, s.desk.pc.event);
    }
  }

  lemma SentTrue(run: seq<Action>, s: State, h: History, a: Action, e: Event)
    requires Truthful(run, s, h) && Enabled(s, a) && e in Next(h, s, a).sent
    ensures Cause(e) in run + [a]
  {
    if e !in h.sent && a.Operate? {
      AdvanceTrue(run, a.id, s.upgrades[a.id], a.op);
    }
  }

  lemma SpawnedTask(s: State, e: Event, n: nat)
    requires n in HandleEvent(s, e).desk.tasks
    ensures HandleEvent(s, e).desk.tasks[n].running || (n in s.desk.tasks && HandleEvent(s, e).desk.tasks[n] == s.desk.tasks[n])
  {
  }

  lemma TasksTrue(run: seq<Action>, s: State, h: History, a: Action, n: nat)
    requires Truthful(run, s, h) && Enabled(s, a) && n in Apply(s, a).desk.tasks
    ensures TaskTrue(run + [a], n, Apply(s, a).desk.tasks[n])
  {
    if a.Handle? {
      SpawnedTask(s, s.desk.pc.event, n);
    } else if a.Operate? {
      SentDesk(s, a.id, a.op);
    }
    if n in s.desk.tasks {
      assert TaskTrue(run, n, s.desk.tasks[n]);
    }
  }

  lemma ReportLonger(run: seq<Action>, a: Action, r: Report)
    requires ReportTrue(run, r)
    ensures ReportTrue(run + [a], r)
  {
    var n, outcome :| EndTask(n, outcome) in run && r.panicked == (outcome == Raised);
    assert EndTask(n, outcome) in run + [a];
  }

  lemma JoinTrue(run: seq<Action>, s: State, n: nat)
    requires Enabled(s, Join(n)) && TaskTrue(run, n, s.desk.tasks[n])
    ensures var pc := Apply(s, Join(n)).desk.pc;
            pc.Joined? ==> ReportTrue(run + [Join(n)], Report(pc.id, pc.panicked))
  {
    assert EndTask(n, s.desk.tasks[n].outcome) in run + [Join(n)];
  }

  lemma JoinedTrue(run: seq<Action>, s: State, h: History, a: Action)
    requires Truthful(run, s, h) && Enabled(s, a)
    ensures var pc := Apply(s, a).desk.pc;
            pc.Joined? ==> ReportTrue(run + [a], Report(pc.id, pc.panicked))
  {
    if a.Join? {
      JoinTrue(run, s, a.t);
    } else if a.Handle? {
      HandledDesk(s, s.desk.pc.event);
    } else if Apply(s, a).desk.pc.Joined? {
      SameJoined(s, a);
      ReportLonger(run, a, Report(s.desk.pc.id, s.desk.pc.panicked));
    }
  }

  lemma SameJoined(s: State, a: Action)
    requires Enabled(s, a) && !a.Join? && !a.Handle? && Apply(s, a).desk.pc.Joined?
    ensures s.desk.pc == Apply(s, a).desk.pc
  {
    if a.Operate? {
      SentDesk(s, a.id, a.op);
    }
  }

  lemma TruthfulStep(run: seq<Action>, s: State, h: History, a: Action)
    requires Truthful(run, s, h) && Enabled(s, a)
    ensures Truthful(run + [a], Apply(s, a), Next(h, s, a))
  {
    var t, g, more := Apply(s, a), Next(h, s, a), run + [a];
    forall id | id in t.upgrades ensures UpgradeTrue(more, id, t.upgrades[id]) {
      UpgradesTrue(run, s, h, a, id);
    }
    forall e | e in g.sent ensures Cause(e) in more {
      SentTrue(run, s, h, a, e);
    }
    forall n | n in t.desk.tasks ensures TaskTrue(more, n, t.desk.tasks[n]) {
      TasksTrue(run, s, h, a, n);
    }
    JoinedTrue(run, s, h, a);
    forall r | r in g.reports ensures ReportTrue(more, r) {
      if r in h.reports {
        ReportLonger(run, a, r);
      } else {
        ReportLonger(run, a, Report(s.desk.pc.id, s.desk.pc.panicked));
      }
    }
  }

  /**
   * On every run what the supervisor is told is what happened: each event it was sent tells of a
   * step its party took, with the outcome that step had, and a task reported as panicked, or not, ended so.
   */
  lemma {:induction false} EventsTrue(run: seq<Action>)
    requires Valid(INITIAL, run)
    ensures Truthful(run, Final(INITIAL, run), Past(run))
    decreases |run|
  {
    if run != [] {
      var k := |run| - 1;
      RunBack(INITIAL, run);
      EventsTrue(run[..k]);
      TruthfulStep(run[..k], Final(INITIAL, run[..k]), Past(run[..k]), run[k]);
      assert run[..k] + [run[k]] == run;
    }
  }

  // ----- admission -----

  lemma Then(s: State, run: seq<Action>, a: Action)
    requires Valid(s, run) && Enabled(Final(s, run), a)
    ensures Valid(s, run + [a]) && Final(s, run + [a]) == Apply(Final(s, run), a)
  {
    FinalOne(Final(s, run), a);
    RunConcat(s, run, [a]);
  }

  /** While admission is open a request with a permit gets the next id. */
  lemma Reserve(s: State, r: nat) returns (more: seq<Action>)
    requires s.reg.accepting && s.requests.available > 0 && s.requests.lock == None && r !in s.requests.at
    ensures Valid(s, more)
    ensures var t := Final(s, more);
            s.reg.nextId in t.upgrades && t.reg.Has(s.reg.nextId, {PendingUpgrade}) && s.upgrades.Keys <= t.upgrades.Keys
  {
    more := [];
    Then(s, more, Acquire(r));
    more := more + [Acquire(r)];
    Then(s, more, CheckAccepting(r));
    more := more + [CheckAccepting(r)];
    Then(s, more, IssueId(r));
    more := more + [IssueId(r)];
    Then(s, more, LockAndRecheck(r));
    more := more + [LockAndRecheck(r)];
    Then(s, more, InsertEntry(r));
    more := more + [InsertEntry(r)];
  }

  /** The lock can always be let go, and nothing else changes for a request that waits for it. */
  lemma LetGo(s: State) returns (more: seq<Action>)
    requires Inv(s)
    ensures Valid(s, more)
    ensures var t := Final(s, more);
            && t.requests.lock == None && t.requests.available == s.requests.available
            && t.requests.at.Keys <= s.requests.at.Keys
            && t.reg.accepting == s.reg.accepting && t.reg.nextId == s.reg.nextId
  {
    more := [];
    if s.requests.lock.Some? {
      var a := InsertEntry(s.requests.lock.value);
      assert Enabled(s, a);
      FinalOne(s, a);
      more := [a];
    }
  }

  lemma NextIdUnused(s: State)
    requires Inv(s)
    ensures s.reg.nextId !in s.upgrades
  {
  }

  /** However a run has gone, while admission is open and a permit is free a new request can reserve an id. */
  lemma CanReserve(run: seq<Action>, r: nat) returns (more: seq<Action>)
    requires Valid(INITIAL, run)
    requires var s := Final(INITIAL, run); s.reg.accepting && s.requests.available > 0 && r !in s.requests.at
    ensures var s := Final(INITIAL, run);
            && Valid(s, more) && s.reg.nextId !in s.upgrades
            && s.reg.nextId in Final(s, more).upgrades && Final(s, more).reg.Has(s.reg.nextId, {PendingUpgrade})
  {
    var s := Final(INITIAL, run);
    RunTold(run);
    NextIdUnused(s);
    var first := LetGo(s);
    var rest := Reserve(Final(s, first), r);
    RunConcat(s, first, rest);
    more := first + rest;
  }

  /** A request leaves without an entry only by giving up or because admission was stopped. */
  lemma RefusedOnlyStopped(s: State, a: Action, r: nat)
    requires Enabled(s, a) && r in s.requests.at && r !in Apply(s, a).requests.at
    ensures a == GiveUp(r) || !s.reg.accepting || (a == InsertEntry(r) && s.requests.at[r].id in Apply(s, a).reg.entries)
  {
    SameRequests(s, a);
  }

  predicate OfRequest(a: Action) {
    a.Acquire? || a.GiveUp? || a.CheckAccepting? || a.IssueId? || a.LockAndRecheck? || a.InsertEntry?
  }

  lemma SameRequests(s: State, a: Action)
    requires Enabled(s, a)
    ensures !OfRequest(a) ==> Apply(s, a).requests.at == s.requests.at && Apply(s, a).reg.nextId == s.reg.nextId
  {
    if a.Handle? {
      HandledRequests(s, s.desk.pc.event);
    }
  }

  lemma HandledRequests(s: State, e: Event)
    ensures HandleEvent(s, e).requests.at == s.requests.at && HandleEvent(s, e).reg.nextId == s.reg.nextId
  {
  }

  /** The requests that may still be issued an id without looking at admission again. */
  function Admitted(at: map<nat, Reserver>): set<nat> {
    set r | r in at && at[r] == SawAccepting
  }

  lemma AdmittedStep(s: State, a: Action)
    requires Enabled(s, a) && !s.reg.accepting
    ensures !Apply(s, a).reg.accepting
    ensures Apply(s, a).reg.nextId + |Admitted(Apply(s, a).requests.at)| <= s.reg.nextId + |Admitted(s.requests.at)|
  {
    var was, now := Admitted(s.requests.at), Admitted(Apply(s, a).requests.at);
    StillStopped(s, a);
    if a.IssueId? {
      assert now == was - {a.r};
    } else {
      SameRequests(s, a);
      assert now <= was;
      Fewer(now, was);
    }
  }

  lemma StillStopped(s: State, a: Action)
    requires Enabled(s, a) && !s.reg.accepting
    ensures !Apply(s, a).reg.accepting
    ensures !a.IssueId? ==> Apply(s, a).reg.nextId == s.reg.nextId
  {
    if a.Handle? {
      HandledDesk(s, s.desk.pc.event);
      HandledRequests(s, s.desk.pc.event);
    }
  }

  lemma Fewer(a: set<nat>, b: set<nat>)
    requires a <= b
    ensures |a| <= |b|
  {
    assert b == a + (b - a);
  }

  /** Once admission has stopped, ids are issued only to requests that had seen it open, one to each. */
  lemma {:induction false} IssuedAfterStop(s: State, run: seq<Action>)
    requires Valid(s, run) && !s.reg.accepting
    ensures Final(s, run).reg.nextId + |Admitted(Final(s, run).requests.at)| <= s.reg.nextId + |Admitted(s.requests.at)|
    decreases |run|
  {
    if run != [] {
      AdmittedStep(s, run[0]);
      IssuedAfterStop(Apply(s, run[0]), run[1..]);
    }
  }

  // ----- service -----

  /** The callback of an upgrade nobody has decided activates it. */
  lemma Activates(s: State, id: Id) returns (more: seq<Action>)
    requires Settled(s) && id in s.upgrades
    requires var u := s.upgrades[id]; u.stage == Pending && u.callback in {Idle, Running} && u.dropped == Waiting
    ensures Valid(s, more)
    ensures Final(s, more).desk == s.desk && Final(s, more).channel == [Activate(id)] && Final(s, more).requests.lock == None
  {
    more := [];
    if s.upgrades[id].callback == Idle {
      Then(s, more, Operate(id, StartCallback));
      more := more + [Operate(id, StartCallback)];
    }
    Then(s, more, Operate(id, TryActivate));
    more := more + [Operate(id, TryActivate)];
    Then(s, more, Operate(id, TakePermit));
    more := more + [Operate(id, TakePermit)];
    Then(s, more, Operate(id, SendActivate));
    more := more + [Operate(id, SendActivate)];
  }

  /** The supervisor takes an activation and starts its task. */
  lemma Starts(s: State, id: Id) returns (more: seq<Action>)
    requires Inv(s) && s.desk.pc == Looping && s.channel == [Activate(id)] && s.requests.lock == None
    ensures Valid(s, more)
    ensures var t := Final(s, more);
            && t.reg.Has(id, {Active}) && s.desk.nextTask in t.desk.tasks
            && t.desk.tasks[s.desk.nextTask].id == id && t.desk.tasks[s.desk.nextTask].running
  {
    more := [];
    Then(s, more, Receive);
    more := more + [Receive];
    StepKeeps(s, Receive);
    Answers(Apply(s, Receive));
    Then(s, more, Handle);
    more := more + [Handle];
  }

  lemma Unsettled(s: State, id: Id)
    requires Inv(s) && id in s.upgrades && s.upgrades[id].stage == Pending
    ensures var u := s.upgrades[id]; u.callback in {Idle, Running} && u.dropped == Waiting && id in s.reg.entries
  {
    assert Phase(ViewOf(s, id));
  }

  predicate Open(s: State, id: Id) {
    id in s.upgrades && s.upgrades[id].stage == Pending
  }

  ghost predicate Served(s: State, id: Id) {
    s.reg.Has(id, {Active}) && exists n :: n in s.desk.tasks && s.desk.tasks[n].id == id && s.desk.tasks[n].running
  }

  lemma ServeSettled(s: State, id: Id) returns (more: seq<Action>)
    requires Reachable(s) && Settled(s) && Open(s, id)
    ensures Valid(s, more) && Served(Final(s, more), id)
  {
    OpenUpgrade(s, id);
    var first := Activates(s, id);
    ReachableOn(s, first);
    var second := StartsReachable(Final(s, first), id);
    RunConcat(s, first, second);
    more := first + second;
  }

  lemma OpenUpgrade(s: State, id: Id)
    requires Reachable(s) && Open(s, id)
    ensures s.upgrades[id].callback in {Idle, Running} && s.upgrades[id].dropped == Waiting && id in s.reg.entries
  {
    ReachableInv(s);
    Unsettled(s, id);
  }

  lemma StartsReachable(s: State, id: Id) returns (more: seq<Action>)
    requires Reachable(s) && s.desk.pc == Looping && s.channel == [Activate(id)] && s.requests.lock == None
    ensures Valid(s, more) && Served(Final(s, more), id)
  {
    ReachableInv(s);
    more := Starts(s, id);
    assert s.desk.nextTask in Final(s, more).desk.tasks;
  }

  lemma OpenUnlocked(s: State, id: Id) returns (more: seq<Action>)
    requires Reachable(s) && Open(s, id) && !s.desk.pc.Returned?
    ensures Valid(s, more)
    ensures var t := Final(s, more); Reachable(t) && Open(t, id) && t.requests.lock == None && !t.desk.pc.Returned?
  {
    more := [];
    if s.requests.lock.Some? {
      var a := InsertEntry(s.requests.lock.value);
      LockHeld(s);
      FinalOne(s, a);
      ReachableNext(s, a);
      more := [a];
    }
  }

  lemma LockHeld(s: State)
    requires Reachable(s) && s.requests.lock.Some?
    ensures Enabled(s, InsertEntry(s.requests.lock.value)) && s.requests.at[s.requests.lock.value].id !in s.upgrades
  {
    ReachableInv(s);
  }

  /** However a run has gone, an upgrade that nobody has decided can go on to be served. */
  lemma CanServe(run: seq<Action>, id: Id) returns (more: seq<Action>)
    requires Valid(INITIAL, run) && Open(Final(INITIAL, run), id)
    ensures Valid(Final(INITIAL, run), more) && Served(Final(Final(INITIAL, run), more), id)
  {
    var s := Final(INITIAL, run);
    OpenUpgrade(s, id);
    NotReturned(s);
    var first := OpenUnlocked(s, id);
    var m := Final(s, first);
    var second, n := Settle(m);
    var third := ServeSettled(n, id);
    RunConcat(m, second, third);
    RunConcat(s, first, second + third);
    more := first + (second + third);
  }
}
