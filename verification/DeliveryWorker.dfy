/**
 * The outbound delivery worker, the callers that stop it, and shutdown, as a state machine over
 * their atomic steps: taking and leaving the claim gate, reading and clearing the claiming flag,
 * and each store call. A store call that fails, or whose caller is aborted, may have taken effect.
 */
module DeliveryWorker {
  import opened Prelude

  type Attempt = nat

  datatype Error = StateStore | Clock | TaskJoin

  /** What a claim finds. */
  datatype Claim = StateAdvanced | NoneDue | Dispatch(attempt: Attempt)

  datatype Worker =
    | Wanting
    | Entered
    | Claiming
    | Claimed(claim: Claim)
    | Interrupting(attempt: Attempt)
    | Waiting
    | Dispatching(attempt: Attempt)
    | Persisting(attempt: Attempt)
    | Finished(result: Result<(), Error>)
    | Aborted
    | Panicked

  /** One `stop_claiming_and_wait`, after its flag is cleared. */
  datatype Stopper = AwaitingGate | HoldingGate | Stopped

  datatype Shutdown =
    | Idle
    | AwaitsGate
    | HoldsGate
    | Joining
    | Aborting
    | Classifying(joined: Result<(), Error>)
    | Returned(result: Result<(), Error>)

  datatype Holder = WorkerHolds | StopperHolds(id: nat) | ShutdownHolds

  /**
   * `open` is the attempts this runtime owns that are not yet decided, `next` the next attempt id,
   * and `calls` how many claims the store has been asked for.
   */
  datatype State = State(
    claiming: bool,
    gate: Option<Holder>,
    worker: Worker,
    stoppers: map<nat, Stopper>,
    shutdown: Shutdown,
    open: set<Attempt>,
    next: Attempt,
    calls: nat)

  const INITIAL := State(true, None, Wanting, map[], Idle, {}, 0, 0)

  predicate Ended(w: Worker) {
    w.Finished? || w == Aborted || w == Panicked
  }

  /** Between taking the claim gate and leaving it. */
  predicate InGate(w: Worker) {
    w == Entered || InClaim(w)
  }

  /** In the part of the claim section that follows the flag check. */
  predicate InClaim(w: Worker) {
    w == Claiming || w.Claimed? || w.Interrupting?
  }

  // ----- steps -----

  datatype Action =
    | Lock
    | Check
    | ClaimAnswers(claim: Claim)
    | ClaimFails(committed: bool)
    | ClockFails
    | Recheck
    | InterruptAnswers(ok: bool, committed: bool)
    | Wake
    | DispatchEnds
    | PersistAnswers(ok: bool, committed: bool)
    | Panic(committed: bool)
    | Stop(id: nat)
    | StopperLock(id: nat)
    | StopperUnlock(id: nat)
    | ShutdownStarts
    | ShutdownLock
    | ShutdownUnlock
    | Join
    | DeadlinePasses
    | AbortTakes(committed: bool)
    | ObserveAborted
    | ClassifyAnswers(ok: bool, committed: bool)
    | ClassifyClockFails

  predicate Enabled(s: State, a: Action) {
    match a
    case Lock => s.worker == Wanting && s.gate.None?
    case Check => s.worker == Entered
    case ClaimAnswers(claim) => s.worker == Claiming && (claim.Dispatch? ==> claim.attempt == s.next)
    case ClaimFails(_) => s.worker == Claiming
    case ClockFails => s.worker == Claiming || s.worker.Persisting?
    case Recheck => s.worker.Claimed?
    case InterruptAnswers(_, _) => s.worker.Interrupting?
    case Wake => s.worker == Waiting
    case DispatchEnds => s.worker.Dispatching?
    case PersistAnswers(_, _) => s.worker.Persisting?
    case Panic(_) => !Ended(s.worker)
    case Stop(id) => id !in s.stoppers
    case StopperLock(id) => id in s.stoppers && s.stoppers[id] == AwaitingGate && s.gate.None?
    case StopperUnlock(id) => id in s.stoppers && s.stoppers[id] == HoldingGate
    case ShutdownStarts => s.shutdown == Idle
    case ShutdownLock => s.shutdown == AwaitsGate && s.gate.None?
    case ShutdownUnlock => s.shutdown == HoldsGate
    case Join => s.shutdown == Joining && Ended(s.worker)
    case DeadlinePasses => s.shutdown == Joining
    case AbortTakes(_) => s.shutdown == Aborting && !Ended(s.worker)
    case ObserveAborted => s.shutdown == Aborting && Ended(s.worker)
    case ClassifyAnswers(_, _) => s.shutdown.Classifying?
    case ClassifyClockFails => s.shutdown.Classifying?
  }

  /** The worker ends, leaving the gate if it holds it. */
  function End(s: State, w: Worker): State {
    s.(worker := w, gate := if s.gate == Some(WorkerHolds) then None else s.gate)
  }

  /** A store call in flight when its caller is lost took effect or did not. */
  function Settled(s: State, committed: bool): State {
    if !committed then s
    else
      match s.worker
      case Claiming => s.(open := s.open + {s.next}, next := s.next + 1)
      case Interrupting(_) => s.(open := {})
      case Persisting(attempt) => s.(open := s.open - {attempt})
      case _ => s
  }

  function Outcome(w: Worker): Result<(), Error> {
    match w
    case Finished(result) => result
    case Aborted => Ok(())
    case _ => Err(TaskJoin)
  }

  function Apply(s: State, a: Action): State
    requires Enabled(s, a)
  {
    match a
    case Lock => s.(worker := Entered, gate := Some(WorkerHolds))
    case Check => if s.claiming then s.(worker := Claiming) else End(s, Finished(Ok(())))
    case ClaimAnswers(claim) =>
      var called := s.(worker := Claimed(claim), calls := s.calls + 1);
      if claim.Dispatch? then called.(open := s.open + {s.next}, next := s.next + 1) else called
    case ClaimFails(committed) => End(Settled(s, committed), Finished(Err(StateStore))).(calls := s.calls + 1)
    case ClockFails => End(s, Finished(Err(Clock)))
    case Recheck =>
      if !s.claiming then
        if s.worker.claim.Dispatch? then s.(worker := Interrupting(s.worker.claim.attempt)) else End(s, Finished(Ok(())))
      else
        (match s.worker.claim
         case StateAdvanced => End(s, Wanting)
         case NoneDue => End(s, Waiting)
         case Dispatch(attempt) => End(s, Dispatching(attempt)))
    case InterruptAnswers(ok, committed) =>
      if ok then End(s, Finished(Ok(()))).(open := {}) else End(Settled(s, committed), Finished(Err(StateStore)))
    case Wake => s.(worker := Wanting)
    case DispatchEnds => s.(worker := Persisting(s.worker.attempt))
    case PersistAnswers(ok, committed) =>
      if ok then s.(worker := Wanting, open := s.open - {s.worker.attempt}) else End(Settled(s, committed), Finished(Err(StateStore)))
    case Panic(committed) => End(Settled(s, committed), Panicked)
    case Stop(id) => s.(claiming := false, stoppers := s.stoppers[id := AwaitingGate])
    case StopperLock(id) => s.(gate := Some(StopperHolds(id)), stoppers := s.stoppers[id := HoldingGate])
    case StopperUnlock(id) => s.(gate := None, stoppers := s.stoppers[id := Stopped])
    case ShutdownStarts => s.(claiming := false, shutdown := AwaitsGate)
    case ShutdownLock => s.(gate := Some(ShutdownHolds), shutdown := HoldsGate)
    case ShutdownUnlock => s.(gate := None, shutdown := Joining)
    case Join => s.(shutdown := Returned(if s.worker == Aborted then Err(TaskJoin) else Outcome(s.worker)))
    case DeadlinePasses => s.(shutdown := Aborting)
    case AbortTakes(committed) => End(Settled(s, committed), Aborted)
    case ObserveAborted => s.(shutdown := Classifying(Outcome(s.worker)))
    case ClassifyAnswers(ok, committed) =>
      if ok then s.(open := {}, shutdown := Returned(s.shutdown.joined))
      else s.(open := if committed then {} else s.open, shutdown := Returned(Err(StateStore)))
    case ClassifyClockFails => s.(shutdown := Returned(Err(Clock)))
  }

  ghost predicate Valid(s: State, run: seq<Action>)
    decreases |run|
  {
    run == [] || (Enabled(s, run[0]) && Valid(Apply(s, run[0]), run[1..]))
  }

  ghost function After(s: State, run: seq<Action>): State
    requires Valid(s, run)
    decreases |run|
  {
    if run == [] then s else After(Apply(s, run[0]), run[1..])
  }

  // ----- the invariant -----

  /** What the worker is working on is what is open. */
  ghost predicate Accounted(w: Worker, open: set<Attempt>) {
    match w
    case Claimed(claim) => open == if claim.Dispatch? then {claim.attempt} else {}
    case Interrupting(attempt) => open == {attempt}
    case Dispatching(attempt) => open == {attempt}
    case Persisting(attempt) => open == {attempt}
    case Finished(result) => result.Ok? ==> open == {}
    case Aborted => true
    case Panicked => true
    case _ => open == {}
  }

  ghost predicate Gated(s: State) {
    && (s.gate == Some(WorkerHolds) <==> InGate(s.worker))
    && (forall id :: id in s.stoppers ==> (s.stoppers[id] == HoldingGate <==> s.gate == Some(StopperHolds(id))))
    && (s.gate.Some? && s.gate.value.StopperHolds? ==> s.gate.value.id in s.stoppers)
    && (s.gate == Some(ShutdownHolds) <==> s.shutdown == HoldsGate)
  }

  /** Somebody has passed the claim gate since clearing the flag. */
  ghost predicate Quiesced(s: State) {
    s.shutdown.Joining? || s.shutdown.Aborting? || s.shutdown.Classifying? || s.shutdown.Returned?
    || exists id :: id in s.stoppers && s.stoppers[id] == Stopped
  }

  ghost predicate Inv(s: State) {
    && Accounted(s.worker, s.open) && |s.open| <= 1
    && Gated(s)
    && (s.shutdown != Idle ==> !s.claiming) && (forall id :: id in s.stoppers ==> !s.claiming)
    && (Quiesced(s) ==> !InClaim(s.worker))
    && (s.shutdown.Classifying? || s.shutdown.Returned? ==> Ended(s.worker))
    && (s.shutdown.Returned? && s.shutdown.result.Ok? ==> s.open == {})
  }

  lemma Single(a: Attempt)
    ensures |{a}| == 1 && {a} - {a} == {}
  {
  }

  lemma GateStep(s: State, a: Action)
    requires Inv(s) && Enabled(s, a) && (a.Lock? || a.Check? || a.Recheck? || a.Wake? || a.DispatchEnds?)
    ensures Inv(Apply(s, a))
  {
  }

  lemma ClaimStep(s: State, a: Action)
    requires Inv(s) && Enabled(s, a) && a.ClaimAnswers?
    ensures Inv(Apply(s, a))
  {
  }

  lemma SettleStep(s: State, a: Action)
    requires Inv(s) && Enabled(s, a) && (a.PersistAnswers? || a.InterruptAnswers?)
    ensures Inv(Apply(s, a))
  {
    if s.worker.Persisting? {
      Single(s.worker.attempt);
    }
  }

  /** Every step of the worker keeps the invariant. */
  lemma WorkerStep(s: State, a: Action)
    requires Inv(s) && Enabled(s, a)
    requires a.Lock? || a.Check? || a.ClaimAnswers? || a.Recheck? || a.Wake? || a.DispatchEnds? || a.PersistAnswers?
             || a.InterruptAnswers?
    ensures Inv(Apply(s, a))
  {
    if a.ClaimAnswers? {
      ClaimStep(s, a);
    } else if a.PersistAnswers? || a.InterruptAnswers? {
      SettleStep(s, a);
    } else {
      GateStep(s, a);
    }
  }

  lemma FailureStep(s: State, a: Action)
    requires Inv(s) && Enabled(s, a) && (a.ClaimFails? || a.ClockFails?)
    ensures Inv(Apply(s, a))
  {
    Single(s.next);
    assert {} + {s.next} == {s.next};
  }

  /** The worker is lost with a store call in flight. */
  lemma LossStep(s: State, a: Action)
    requires Inv(s) && Enabled(s, a) && (a.Panic? || a.AbortTakes?)
    ensures Inv(Apply(s, a))
  {
    Single(s.next);
    assert {} + {s.next} == {s.next};
    if s.worker.Persisting? {
      Single(s.worker.attempt);
    }
  }

  lemma StopperStep(s: State, a: Action)
    requires Inv(s) && Enabled(s, a) && (a.Stop? || a.StopperLock? || a.StopperUnlock?)
    ensures Inv(Apply(s, a))
  {
  }

  lemma ShutdownStep(s: State, a: Action)
    requires Inv(s) && Enabled(s, a)
    requires a.ShutdownStarts? || a.ShutdownLock? || a.ShutdownUnlock? || a.Join? || a.DeadlinePasses?
             || a.ObserveAborted?
             || a.ClassifyAnswers? || a.ClassifyClockFails?
    ensures Inv(Apply(s, a))
  {
  }

  lemma StepKeeps(s: State, a: Action)
    requires Inv(s) && Enabled(s, a)
    ensures Inv(Apply(s, a))
  {
    if a.ClaimFails? || a.ClockFails? {
      FailureStep(s, a);
    } else if a.Panic? || a.AbortTakes? {
      LossStep(s, a);
    } else if a.Stop? || a.StopperLock? || a.StopperUnlock? {
      StopperStep(s, a);
    } else if a.ShutdownStarts? || a.ShutdownLock? || a.ShutdownUnlock? || a.Join? || a.DeadlinePasses?
              || a.ObserveAborted?
              || a.ClassifyAnswers? || a.ClassifyClockFails? {
      ShutdownStep(s, a);
    } else {
      WorkerStep(s, a);
    }
  }

  lemma {:induction false} RunKeeps(s: State, run: seq<Action>)
    requires Inv(s) && Valid(s, run)
    ensures Inv(After(s, run))
    decreases |run|
  {
    if run != [] {
      StepKeeps(s, run[0]);
      RunKeeps(Apply(s, run[0]), run[1..]);
    }
  }

  // ----- the promises -----

  lemma InitialInv()
    ensures Inv(INITIAL)
  {
  }

  /** In every run, at most one attempt is ever outstanding. */
  lemma AtMostOneOutstanding(run: seq<Action>)
    requires Valid(INITIAL, run)
    ensures |After(INITIAL, run).open| <= 1
  {
    InitialInv();
    RunKeeps(INITIAL, run);
  }

  lemma QuiescedStep(s: State, a: Action)
    requires Inv(s) && Quiesced(s) && Enabled(s, a)
    ensures Quiesced(Apply(s, a)) && Apply(s, a).calls == s.calls && Apply(s, a).open <= s.open
  {
    if exists id :: id in s.stoppers && s.stoppers[id] == Stopped {
      var id :| id in s.stoppers && s.stoppers[id] == Stopped;
      assert id in Apply(s, a).stoppers && Apply(s, a).stoppers[id] == Stopped;
    }
  }

  /**
   * Once some `stop_claiming_and_wait` has completed, no claim is ever made again and no attempt
   * becomes outstanding.
   */
  lemma {:induction false} NoClaimAfterStop(s: State, run: seq<Action>)
    requires Inv(s) && Quiesced(s) && Valid(s, run)
    ensures After(s, run).calls == s.calls && After(s, run).open <= s.open
    decreases |run|
  {
    if run != [] {
      QuiescedStep(s, run[0]);
      StepKeeps(s, run[0]);
      NoClaimAfterStop(Apply(s, run[0]), run[1..]);
    }
  }

  /** A worker or a shutdown that returns Ok leaves no attempt of this runtime undecided, now or later. */
  lemma OkLeavesNothing(run: seq<Action>)
    requires Valid(INITIAL, run)
    ensures var s := After(INITIAL, run);
            (s.worker == Finished(Ok(())) || s.shutdown == Returned(Ok(()))) ==> s.open == {}
  {
    InitialInv();
    RunKeeps(INITIAL, run);
  }

  /** When a stop completes, an attempt can only be outstanding if it was already dispatched before. */
  lemma StopReconciles(run: seq<Action>, id: nat)
    requires Valid(INITIAL, run)
    requires var s := After(INITIAL, run); id in s.stoppers && s.stoppers[id] == Stopped
    ensures var s := After(INITIAL, run);
            s.open != {} ==> s.worker.Dispatching? || s.worker.Persisting? || s.worker == Aborted || s.worker == Panicked
                             || (s.worker.Finished? && s.worker.result.Err?)
  {
    InitialInv();
    RunKeeps(INITIAL, run);
  }

  // ----- progress -----

  /** The steps a started shutdown waits for: its own, and those of whoever holds the gate. */
  predicate Helps(a: Action) {
    || a.Check? || a.ClaimAnswers? || a.Recheck? || a.InterruptAnswers? || a.StopperUnlock?
    || a.ShutdownLock? || a.ShutdownUnlock? || a.DeadlinePasses? || a.AbortTakes? || a.ObserveAborted?
    || a.ClassifyAnswers?
  }

  /** A shutdown is never stuck: until it returns, it or the holder of the gate can move. */
  lemma ShutdownNeverStuck(run: seq<Action>)
    requires Valid(INITIAL, run)
    ensures var s := After(INITIAL, run);
            s.shutdown != Idle && !s.shutdown.Returned? ==> exists a :: Enabled(s, a) && Helps(a)
  {
    InitialInv();
    RunKeeps(INITIAL, run);
    var s := After(INITIAL, run);
    if s.shutdown != Idle && !s.shutdown.Returned? {
      var a := HelpfulMove(s);
    }
  }

  lemma HelpfulMove(s: State) returns (a: Action)
    requires Inv(s) && s.shutdown != Idle && !s.shutdown.Returned?
    ensures Enabled(s, a) && Helps(a)
  {
    match s.shutdown
    case AwaitsGate =>
      if s.gate.None? {
        a := ShutdownLock;
      } else if s.gate.value.StopperHolds? {
        a := StopperUnlock(s.gate.value.id);
      } else {
        match s.worker
        case Entered => a := Check;
        case Claiming => a := ClaimAnswers(NoneDue);
        case Claimed(_) => a := Recheck;
        case Interrupting(_) => a := InterruptAnswers(true, true);
      }
    case HoldsGate => a := ShutdownUnlock;
    case Joining => a := DeadlinePasses;
    case Aborting => a := if Ended(s.worker) then ObserveAborted else AbortTakes(false);
    case Classifying(_) => a := ClassifyAnswers(true, true);
  }
}
