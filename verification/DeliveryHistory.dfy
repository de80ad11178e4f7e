/**
 * Why the delivery worker and its shutdown are where they are, told by the actions of the whole
 * run alone; and that a worker nobody stops goes on to claim and dispatch.
 */
module DeliveryHistory {
  import opened Prelude
  import opened DeliveryWorker

  lemma {:induction false} RunBack(s: State, run: seq<Action>)
    requires Valid(s, run) && run != []
    ensures var k := |run| - 1;
            && Valid(s, run[..k]) && Enabled(After(s, run[..k]), run[k])
            && After(s, run) == Apply(After(s, run[..k]), run[k])
    decreases |run|
  {
    if |run| > 1 {
      var k := |run| - 1;
      RunBack(Apply(s, run[0]), run[1..]);
      assert run[..k][1..] == run[1..][..k - 1];
    }
  }

  // ----- what happened -----

  /** What a run did that may end the worker or the shutdown. */
  datatype Causes = Causes(
    closed: bool,
    storeFailed: bool,
    clockFailed: bool,
    panicked: bool,
    late: bool,
    aborted: bool)

  /**
   * What the worker's claims came to: what the last one found and whether a wake came since, how many
   * found something to dispatch, how many dispatches ended, and how many results were persisted.
   */
  datatype Tally = Tally(found: Option<Claim>, woken: bool, claimed: nat, dispatched: nat, persisted: nat)

  /** `verdict` is what the shutdown ended with: the join, or the classification after an abort. */
  datatype Past = Past(causes: Causes, tally: Tally, started: bool, verdict: Option<Action>)

  function NoteCause(c: Causes, a: Action): Causes {
    match a
    case Stop(_) => c.(closed := true)
    case ShutdownStarts => c.(closed := true)
    case ClaimFails(_) => c.(storeFailed := true)
    case InterruptAnswers(ok, _) => c.(storeFailed := c.storeFailed || !ok)
    case PersistAnswers(ok, _) => c.(storeFailed := c.storeFailed || !ok)
    case ClockFails => c.(clockFailed := true)
    case Panic(_) => c.(panicked := true)
    case DeadlinePasses => c.(late := true)
    case AbortTakes(_) => c.(aborted := true)
    case _ => c
  }

  function NoteTally(t: Tally, a: Action): Tally {
    match a
    case ClaimAnswers(claim) => t.(found := Some(claim), woken := false, claimed := t.claimed + if claim.Dispatch? then 1 else 0)
    case Wake => t.(woken := true)
    case DispatchEnds => t.(dispatched := t.dispatched + 1)
    case PersistAnswers(ok, _) => t.(persisted := t.persisted + if ok then 1 else 0)
    case _ => t
  }

  function Note(p: Past, a: Action): Past {
    Past(NoteCause(p.causes, a), NoteTally(p.tally, a), p.started || a.ShutdownStarts?,
         if a.Join? || a.ClassifyAnswers? || a.ClassifyClockFails? then Some(a) else p.verdict)
  }

  function PastOf(run: seq<Action>): Past {
    if run == [] then Past(Causes(false, false, false, false, false, false), Tally(None, false, 0, 0, 0), false, None)
    else Note(PastOf(run[..|run| - 1]), run[|run| - 1])
  }

  // ----- why the worker is where it is -----

  predicate WorkerCaused(w: Worker, c: Causes) {
    match w
    case Finished(result) =>
      (match result
       case Ok(_) => c.closed
       case Err(error) => match error case StateStore => c.storeFailed case Clock => c.clockFailed case TaskJoin => false)
    case Interrupting(_) => c.closed
    case Panicked => c.panicked
    case Aborted => c.aborted && c.late
    case _ => true
  }

  /** The attempt the worker holds, claimed and not yet dispatched to the end. */
  predicate InHand(w: Worker) {
    (w.Claimed? && w.claim.Dispatch?) || w.Interrupting? || w.Dispatching?
  }

  predicate WorkerTallied(w: Worker, t: Tally) {
    && (w.Claimed? ==> t.found == Some(w.claim))
    && (w.Interrupting? || w.Dispatching? || w.Persisting? ==> t.found == Some(Dispatch(w.attempt)))
    && (w == Waiting ==> t.found == Some(NoneDue))
    && (t.found == Some(NoneDue) && (w == Wanting || w == Entered || w == Claiming) ==> t.woken)
    && (if Ended(w)
        then t.dispatched <= t.claimed <= t.dispatched + 1 && t.persisted <= t.dispatched <= t.persisted + 1
        else t.claimed == t.dispatched + (if InHand(w) then 1 else 0)
             && t.dispatched == t.persisted + if w.Persisting? then 1 else 0)
  }

  /** What an observed end of the worker counts as: an abort is no failure, a panic is. */
  predicate Comes(w: Worker, r: Result<(), Error>) {
    match w
    case Finished(result) => r == result
    case Aborted => r == Ok(())
    case Panicked => r == Err(TaskJoin)
    case _ => false
  }

  predicate ShutdownCaused(s: State, p: Past) {
    && (s.shutdown == Idle <==> !p.started)
    && (s.shutdown.Aborting? || s.shutdown.Classifying? ==> p.causes.late)
    && (!s.shutdown.Aborting? && !s.shutdown.Classifying? && !s.shutdown.Returned? ==> s.worker != Aborted)
    && (s.shutdown.Classifying? ==> Comes(s.worker, s.shutdown.joined))
    && (s.shutdown.Returned? ==>
          && p.verdict.Some?
          && match p.verdict.value
             case Join => Comes(s.worker, s.shutdown.result)
             case ClassifyAnswers(ok, _) =>
               p.causes.late && if ok then Comes(s.worker, s.shutdown.result) else s.shutdown.result == Err(StateStore)
             case _ => p.causes.late && s.shutdown.result == Err(Clock))
  }

  ghost predicate Explained(s: State, p: Past) {
    && s.claiming == !p.causes.closed
    && WorkerCaused(s.worker, p.causes) && WorkerTallied(s.worker, p.tally) && ShutdownCaused(s, p)
  }

  lemma EndedStays(s: State, a: Action)
    requires Enabled(s, a) && Ended(s.worker)
    ensures Apply(s, a).worker == s.worker
  {
  }

  lemma CauseStep(s: State, p: Past, a: Action)
    requires Explained(s, p) && Enabled(s, a)
    ensures Apply(s, a).claiming == !Note(p, a).causes.closed && WorkerCaused(Apply(s, a).worker, Note(p, a).causes)
  {
  }

  lemma TallyStep(s: State, p: Past, a: Action)
    requires Explained(s, p) && Enabled(s, a)
    ensures WorkerTallied(Apply(s, a).worker, Note(p, a).tally)
  {
  }

  lemma ShutdownStep(s: State, p: Past, a: Action)
    requires Inv(s) && Explained(s, p) && Enabled(s, a)
    ensures ShutdownCaused(Apply(s, a), Note(p, a))
  {
    if Ended(s.worker) {
      EndedStays(s, a);
    }
  }

  /**
   * On every run the actions of the run explain where the worker and the shutdown are. A worker that
   * has returned Ok was told to stop, one that failed met that failure, and none is aborted before the
   * deadline; it waits only after a claim found nothing due, and claims again after that only when
   * woken; until it ends every attempt it claimed was dispatched once or is in its hands. A shutdown
   * returns what became of the worker, or the failure to classify what was interrupted.
   */
  lemma {:induction false} RunExplained(run: seq<Action>)
    requires Valid(INITIAL, run)
    ensures Inv(After(INITIAL, run)) && Explained(After(INITIAL, run), PastOf(run))
    decreases |run|
  {
    InitialInv();
    if run != [] {
      var k := |run| - 1;
      RunBack(INITIAL, run);
      RunExplained(run[..k]);
      var s, p := After(INITIAL, run[..k]), PastOf(run[..k]);
      StepKeeps(s, run[k]);
      CauseStep(s, p, run[k]);
      TallyStep(s, p, run[k]);
      ShutdownStep(s, p, run[k]);
    }
  }

  /** Claiming is open exactly until somebody stops it. */
  lemma {:induction false} ClosedBySomeone(run: seq<Action>)
    ensures PastOf(run).causes.closed <==> exists k :: 0 <= k < |run| && (run[k].Stop? || run[k].ShutdownStarts?)
  {
    if run != [] {
      var k := |run| - 1;
      ClosedBySomeone(run[..k]);
      assert run == run[..k] + [run[k]];
    }
  }

  /** Only a stopped worker returns Ok. */
  lemma OkMeansStopped(run: seq<Action>)
    requires Valid(INITIAL, run) && After(INITIAL, run).worker == Finished(Ok(()))
    ensures !After(INITIAL, run).claiming
    ensures exists k :: 0 <= k < |run| && (run[k].Stop? || run[k].ShutdownStarts?)
  {
    RunExplained(run);
    ClosedBySomeone(run);
  }

  /** A worker that is in the claim section when claiming stops ends there: it neither waits nor dispatches. */
  lemma {:induction false} StoppedInGate(s: State, run: seq<Action>)
    requires Valid(s, run) && !s.claiming && (InGate(s.worker) || Ended(s.worker))
    ensures var t := After(s, run); !t.claiming && (InGate(t.worker) || Ended(t.worker))
    decreases |run|
  {
    if run != [] {
      StoppedInGate(Apply(s, run[0]), run[1..]);
    }
  }

  // ----- a worker nobody stops goes on -----

  lemma {:induction false} RunConcat(s: State, run: seq<Action>, more: seq<Action>)
    requires Valid(s, run) && Valid(After(s, run), more)
    ensures Valid(s, run + more) && After(s, run + more) == After(After(s, run), more)
    decreases |run|
  {
    if run == [] {
      assert run + more == more;
    } else {
      assert (run + more)[1..] == run[1..] + more;
      RunConcat(Apply(s, run[0]), run[1..], more);
    }
  }

  lemma Then(s: State, run: seq<Action>, a: Action)
    requires Valid(s, run) && Enabled(After(s, run), a)
    ensures Valid(s, run + [a]) && After(s, run + [a]) == Apply(After(s, run), a)
  {
    assert [a][1..] == [];
    assert Valid(Apply(After(s, run), a), []);
    assert Valid(After(s, run), [a]) && After(After(s, run), [a]) == Apply(After(s, run), a);
    RunConcat(s, run, [a]);
  }

  /** The worker is about to take the claim gate, which is free. */
  predicate AtGate(s: State) {
    s.claiming && s.worker == Wanting && s.gate == None
  }

  /** A worker that nobody has stopped and that has not ended. */
  ghost predicate Working(s: State) {
    Inv(s) && s.claiming && !Ended(s.worker) && !s.worker.Interrupting?
  }

  /** How far the worker is from the gate. */
  function GateRank(w: Worker): nat {
    match w
    case Entered => 6
    case Claiming => 5
    case Claimed(_) => 4
    case Dispatching(_) => 3
    case Persisting(_) => 2
    case Waiting => 1
    case _ => 0
  }

  lemma GateMove(s: State) returns (a: Action)
    requires Working(s) && s.worker != Wanting
    ensures Enabled(s, a)
    ensures var t := Apply(s, a); Working(t) && GateRank(t.worker) < GateRank(s.worker) && t.calls >= s.calls
  {
    a := match s.worker
      case Entered => Check
      case Claiming => ClaimAnswers(StateAdvanced)
      case Claimed(_) => Recheck
      case Dispatching(_) => DispatchEnds
      case Persisting(_) => PersistAnswers(true, true)
      case _ => Wake;
    StepKeeps(s, a);
  }

  lemma WantingAtGate(s: State)
    requires Working(s) && s.worker == Wanting
    ensures AtGate(s) && s.open == {}
  {
  }

  /** From wherever it is, the worker comes back to the gate. */
  lemma {:induction false} ToGate(s: State) returns (more: seq<Action>)
    requires Working(s)
    ensures Valid(s, more) && AtGate(After(s, more)) && After(s, more).calls >= s.calls && After(s, more).open == {}
    decreases GateRank(s.worker)
  {
    if s.worker == Wanting {
      WantingAtGate(s);
      return [];
    }
    var a := GateMove(s);
    more := ToGate(Apply(s, a));
    assert ([a] + more)[1..] == more;
    more := [a] + more;
  }

  /** At the gate it asks for a claim, and dispatches what it is given. */
  lemma Delivers(s: State) returns (more: seq<Action>)
    requires AtGate(s)
    ensures Valid(s, more)
    ensures var t := After(s, more);
            t.worker == Dispatching(s.next) && t.calls == s.calls + 1 && t.open == s.open + {s.next} && t.claiming
  {
    more := [];
    Then(s, more, Lock);
    more := more + [Lock];
    Then(s, more, Check);
    more := more + [Check];
    Then(s, more, ClaimAnswers(Dispatch(s.next)));
    more := more + [ClaimAnswers(Dispatch(s.next))];
    Then(s, more, Recheck);
    more := more + [Recheck];
  }

  /**
   * However a run has gone, a worker that has not ended and that nobody has stopped can go on to
   * claim another attempt, dispatch it, persist its result and come back for the next.
   */
  lemma CanDeliver(run: seq<Action>) returns (claims: seq<Action>, settles: seq<Action>)
    requires Valid(INITIAL, run)
    requires var s := After(INITIAL, run); s.claiming && !Ended(s.worker)
    ensures var s := After(INITIAL, run);
            && Valid(s, claims) && Valid(After(s, claims), settles)
            && var t, u := After(s, claims), After(After(s, claims), settles);
            && t.calls > s.calls && t.worker.Dispatching? && t.open == {t.worker.attempt}
            && u.open == {} && AtGate(u)
  {
    var s := After(INITIAL, run);
    RunExplained(run);
    var first := ToGate(s);
    var m := After(s, first);
    var second := Delivers(m);
    RunConcat(s, first, second);
    claims := first + second;
    var t := After(s, claims);
    InvAfter(run, claims);
    settles := ToGate(t);
  }

  lemma InvAfter(run: seq<Action>, more: seq<Action>)
    requires Valid(INITIAL, run) && Valid(After(INITIAL, run), more)
    ensures Inv(After(After(INITIAL, run), more))
  {
    RunConcat(INITIAL, run, more);
    RunExplained(run + more);
  }
}
