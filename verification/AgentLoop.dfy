/**
 * The bounded agent loop of one work. The store, the gateway, the tools and the clock are an
 * environment indexed by time; what the loop does to them is a trace of effects.
 */
module AgentLoop {
  import opened Prelude

  const MAX_MODEL_STEPS_PER_WORK: nat := 16
  const MAX_PROVIDER_ATTEMPTS_PER_WORK: nat := 32
  const MAX_TOOL_CALLS_PER_WORK: nat := 32
  const MAX_WORK_SECONDS: nat := 1_800
  const U32_MAX: nat := 4_294_967_295

  datatype Limits = Limits(modelSteps: nat, providerAttempts: nat, toolCalls: nat, workSeconds: nat)

  predicate ValidLimits(l: Limits) {
    && 0 < l.modelSteps <= MAX_MODEL_STEPS_PER_WORK
    && 0 < l.providerAttempts <= MAX_PROVIDER_ATTEMPTS_PER_WORK && l.modelSteps <= l.providerAttempts
    && 0 < l.toolCalls <= MAX_TOOL_CALLS_PER_WORK
    && 0 < l.workSeconds <= MAX_WORK_SECONDS
  }

  datatype WorkState = Running | CancelRequested | Settled

  /** A work as loaded: its state, whether this runtime owns it, its current attempt and its version. */
  datatype Work = Work(state: WorkState, owned: bool, attempt: Option<nat>, version: nat)

  datatype Exit = TerminalCommitted | CancellationConfirmed | Abnormal

  datatype StopReason =
    | Completed
    | Refusal
    | ToolContinuation(calls: nat, wellFormed: bool)
    | IncompleteProviderLimit
    | Cancelled
    | ProviderFailure

  datatype ModelOutcome =
    | Interrupted
    | CancelledBeforeAttempt(work: Work)
    | DeadlineBeforeAttempt(work: Work)
    | Failed(work: Work)
    | Responded(work: Work, stop: StopReason)

  datatype ToolOutcome = Done | OutcomeUnknown | CancelledBeforeIntent | OtherFailure

  /** How the route of a reply is found and planned. */
  datatype Reply = NoBinding | Planned | Unplannable

  /** When a cancellation meets a tool call: not at all, before it starts, or while it runs. */
  datatype Arrival = Never | Before | Midway

  datatype Env = Env(
    load: nat -> Option<Work>,
    modelAttempts: nat -> nat,
    cancelled: nat -> bool,
    late: nat -> bool,
    selects: nat -> bool,
    assembles: nat -> bool,
    gateway: nat -> Option<ModelOutcome>,
    tool: nat -> ToolOutcome,
    toolRecorded: nat -> bool,
    cancelArrives: nat -> Arrival,
    transitions: Work -> bool,
    wallClock: nat -> bool,
    contentful: nat -> bool,
    reply: nat -> Reply,
    write: nat -> bool)

  datatype Effect =
    | Invoked(step: nat)
    | Executed(step: nat, ordinal: nat)
    | FailWritten
    | CompletionWritten
    | DraftAbandoned
    | DraftsFinalized
    | Woken

  predicate Terminal(e: Effect) {
    e == FailWritten || e == CompletionWritten
  }

  predicate Active(e: Effect) {
    e.Invoked? || e.Executed?
  }

  // ----- traces -----

  function Invocations(trace: seq<Effect>): seq<nat> {
    if trace == [] then []
    else
      var k := |trace| - 1;
      if trace[k].Invoked? then Invocations(trace[..k]) + [trace[k].step] else Invocations(trace[..k])
  }

  function Executions(trace: seq<Effect>): nat {
    if trace == [] then 0
    else
      var k := |trace| - 1;
      Executions(trace[..k]) + if trace[k].Executed? then 1 else 0
  }

  ghost predicate NoTerminal(trace: seq<Effect>) {
    FailWritten !in trace && CompletionWritten !in trace
  }

  /** At most one terminal write, and nothing invoked, executed or written after it. */
  ghost predicate EndsOnce(trace: seq<Effect>) {
    forall i, j :: 0 <= i < j < |trace| ==> Settles(trace, i, j)
  }

  predicate Settles(trace: seq<Effect>, i: nat, j: nat)
    requires i < j < |trace|
  {
    Terminal(trace[i]) ==> !Terminal(trace[j]) && !Active(trace[j])
  }

  /** The steps 1 to `n`. */
  function Steps(n: nat): seq<nat> {
    seq(n, i => i + 1)
  }

  lemma InvocationsAppend(trace: seq<Effect>, e: Effect)
    ensures Invocations(trace + [e]) == if e.Invoked? then Invocations(trace) + [e.step] else Invocations(trace)
    ensures Executions(trace + [e]) == Executions(trace) + if e.Executed? then 1 else 0
  {
  }

  /** A trailing write executes nothing. */
  lemma SameExecutions(before: seq<Effect>, after: seq<Effect>)
    requires after == before || after == before + [FailWritten]
    ensures Executions(after) == Executions(before)
  {
  }

  lemma EndsWrite(trace: seq<Effect>, e: Effect)
    requires NoTerminal(trace)
    ensures EndsOnce(trace + [e])
  {
  }

  lemma EndsQuiet(trace: seq<Effect>, e: Effect)
    requires EndsOnce(trace) && !Terminal(e) && !Active(e)
    ensures EndsOnce(trace + [e])
  {
    var more := trace + [e];
    forall i, j | 0 <= i < j < |more| ensures Settles(more, i, j) {
      assert j < |trace| ==> Settles(trace, i, j);
    }
  }

  ghost predicate HasTerminal(trace: seq<Effect>) {
    FailWritten in trace || CompletionWritten in trace
  }

  /**
   * Nothing fails: the work stays as it is loaded, nobody cancels, time and attempts suffice, and
   * the model answers, with whatever stop reasons.
   */
  ghost predicate Healthy(env: Env, limits: Limits) {
    && env.load(0).Some? && var w := env.load(0).value;
                         && w.state == Running && w.owned && w.attempt == None && env.transitions(w)
                         && forall t: nat :: SmoothAt(env, limits, w, t)
  }

  ghost predicate SmoothAt(env: Env, limits: Limits, w: Work, t: nat) {
    && env.load(t) == Some(w) && !env.cancelled(t) && !env.late(t) && env.selects(t) && env.assembles(t)
    && env.modelAttempts(t) < limits.providerAttempts
    && env.gateway(t).Some? && env.gateway(t).value.Responded? && env.gateway(t).value.work == w
    && env.tool(t) == Done && env.cancelArrives(t) == Never
    && env.wallClock(t) && env.reply(t) != Unplannable && env.write(t)
  }

  // ----- what the answers lead to -----

  /** One invocation: when the checks before it passed, the recorded calls then, and what it came to. */
  datatype Answer = Answer(checked: nat, calls: nat, outcome: Option<ModelOutcome>, contentful: bool, reply: Reply)

  /** The gateway gave this outcome, and content and reply are what was found of it. */
  ghost predicate Genuine(env: Env, a: Answer) {
    && (exists t: nat :: env.gateway(t) == a.outcome)
    && (exists t: nat :: env.contentful(t) == a.contentful && env.reply(t) == a.reply)
  }

  /** Every check before a step passes, as they stand at `t` and with the work loaded just before. */
  predicate Clear(env: Env, limits: Limits, step: nat, calls: nat, t: nat) {
    && 0 < t && env.load(t - 1).Some?
    && env.load(t - 1).value.state == Running && env.load(t - 1).value.owned && env.load(t - 1).value.attempt == None
    && !env.cancelled(t) && !Barred(env, limits, step, calls, t)
  }

  /** Time, steps, attempts or calls are used up, or no model or context is to be had. */
  predicate Barred(env: Env, limits: Limits, step: nat, calls: nat, t: nat) {
    || env.late(t) || step > limits.modelSteps || env.modelAttempts(t) >= limits.providerAttempts
    || calls > limits.toolCalls || !env.selects(t) || !env.assembles(t)
  }

  ghost predicate CancelSeen(env: Env) {
    exists t: nat :: env.cancelled(t) || (env.load(t).Some? && env.load(t).value.state == CancelRequested)
                     || env.cancelArrives(t) != Never
  }

  /** The first `n` calls of a step. */
  function Calls(step: nat, n: nat): seq<Effect> {
    seq(n, i requires 0 <= i < n => Executed(step, i + 1))
  }

  /** The answer asks for well-formed calls that fit the limit, so the loop goes on after them. */
  predicate Continues(a: Answer, limits: Limits) {
    && a.outcome.Some? && a.outcome.value.Responded? && a.outcome.value.work.state != Settled
    && a.outcome.value.stop.ToolContinuation?
    && var stop := a.outcome.value.stop; 0 < stop.calls && stop.wellFormed && a.calls + stop.calls <= limits.toolCalls
  }

  /** A step that went on: the model, and its calls in order. */
  function Scene(step: nat, a: Answer): seq<Effect> {
    [Invoked(step), DraftAbandoned] +
    Calls(step, if a.outcome.Some? && a.outcome.value.Responded? && a.outcome.value.stop.ToolContinuation?
          then a.outcome.value.stop.calls else 0)
  }

  function Script(told: seq<Answer>): seq<Effect> {
    if told == [] then [] else Script(told[..|told| - 1]) + Scene(|told|, told[|told| - 1])
  }

  /** The work is failed, or could not be; where nothing fails it is. */
  predicate Fails(tail: seq<Effect>, exit: Exit, sure: bool) {
    || (tail == [] && exit == Abnormal && !sure)
    || (tail == [FailWritten] && exit != CancellationConfirmed && (sure ==> exit == TerminalCommitted))
  }

  /** The draft is abandoned first. */
  predicate AbandonsAndFails(tail: seq<Effect>, exit: Exit, sure: bool) {
    tail != [] && tail[0] == DraftAbandoned && Fails(tail[1..], exit, sure)
  }

  /** The answer is committed and its drafts finalized, or could not be; where nothing fails it is. */
  predicate Commits(reply: Reply, tail: seq<Effect>, exit: Exit, sure: bool) {
    || (tail == [] && exit == Abnormal && !sure)
    || (reply != Unplannable && tail == [CompletionWritten, DraftAbandoned] && exit == Abnormal && !sure)
    || (&& reply != Unplannable && exit == TerminalCommitted
        && tail == if reply == Planned then [CompletionWritten, DraftsFinalized, Woken] else [CompletionWritten, DraftsFinalized])
  }

  /**
   * What a call executed at `at` leads to, with the cancellation that met it: the loop goes on only
   * after a call that is done, that no cancellation met and after which the work could be loaded.
   */
  function CallEnds(env: Env, arrival: Arrival, at: nat): Option<Exit> {
    var loaded := env.load(at + 1);
    if arrival == Midway && (loaded.None? || loaded.value.state != CancelRequested) then Some(Abnormal)
    else
      match env.tool(at)
      case Done => if arrival != Never then Some(TerminalCommitted) else if loaded.None? then Some(Abnormal) else None
      case OutcomeUnknown => Some(TerminalCommitted)
      case CancelledBeforeIntent => Some(if arrival != Never then CancellationConfirmed else Abnormal)
      case OtherFailure => Some(Abnormal)
  }

  /** Some executed call led to this exit. */
  ghost predicate CallBroke(env: Env, exit: Exit) {
    exists met: nat, at: nat :: CallEnds(env, env.cancelArrives(met), at) == Some(exit)
  }

  /** The calls of a step stop short after `n`: before the first when they would pass the limit. */
  ghost predicate BreaksAt(env: Env, over: bool, step: nat, n: nat, calls: nat, tail: seq<Effect>, exit: Exit) {
    && n <= calls && (over ==> n == 0) && (exit == CancellationConfirmed ==> CancelSeen(env))
    && (|| (tail == Calls(step, n) && n > 0 && CallBroke(env, exit))
        || (tail == Calls(step, n) && n < calls && exit != TerminalCommitted)
        || (&& tail == Calls(step, n) + [FailWritten] && n < calls && exit != CancellationConfirmed
            && (over || exists t: nat :: env.late(t))))
  }

  ghost predicate Breaks(env: Env, over: bool, step: nat, calls: nat, tail: seq<Effect>, exit: Exit) {
    exists n: nat :: BreaksAt(env, over, step, n, calls, tail, exit)
  }

  /** What an answer that ends the run leads to. */
  ghost predicate Leads(env: Env, limits: Limits, a: Answer, step: nat, tail: seq<Effect>, exit: Exit) {
    var sure := Healthy(env, limits);
    match a.outcome
    case None => tail == [] && exit == Abnormal
    case Some(Interrupted) => tail == [] && exit == TerminalCommitted
    case Some(CancelledBeforeAttempt(work)) =>
      tail == [] && exit == if work.state == Settled then TerminalCommitted else CancellationConfirmed
    case Some(DeadlineBeforeAttempt(_)) => Fails(tail, exit, sure)
    case Some(Failed(_)) => Fails(tail, exit, sure)
    case Some(Responded(work, stop)) =>
      if work.state == Settled then tail == [] && exit == TerminalCommitted
      else if stop.ToolContinuation? then
        ToolsLead(env, limits, a.calls + stop.calls > limits.toolCalls, stop.calls, stop.wellFormed, step, tail, exit)
      else if stop.Completed? || stop.Refusal? then Answers(a.contentful, a.reply, tail, exit, sure)
      else AbandonsAndFails(tail, exit, sure)
  }

  /** A batch of calls that ends the run: malformed or over the limit, or broken off by a failure. */
  ghost predicate ToolsLead(env: Env, limits: Limits, over: bool, calls: nat, wellFormed: bool, step: nat,
                            tail: seq<Effect>, exit: Exit)
  {
    var sure := Healthy(env, limits);
    && tail != [] && tail[0] == DraftAbandoned
    && if calls == 0 || !wellFormed || (sure && over) then Fails(tail[1..], exit, sure)
       else !sure && Breaks(env, over, step, calls, tail[1..], exit)
  }

  /** An answer with content is committed, one without fails the work. */
  predicate Answers(contentful: bool, reply: Reply, tail: seq<Effect>, exit: Exit, sure: bool) {
    if contentful then Commits(reply, tail, exit, sure) else AbandonsAndFails(tail, exit, sure)
  }

  /** Every model was invoked after its checks had passed, and every answer but the last asked for calls. */
  ghost predicate Heard(env: Env, limits: Limits, told: seq<Answer>) {
    forall i :: 0 <= i < |told| ==>
                  && Clear(env, limits, i + 1, told[i].calls, told[i].checked) && Genuine(env, told[i])
                  && (i < |told| - 1 ==> Continues(told[i], limits))
  }

  /**
   * The checks made at `t` end the run before a step: a requested cancellation is confirmed if no
   * attempt is open, a work that is lost or not this run's to go on with ends it abnormally, and a
   * used-up limit fails the work.
   */
  ghost predicate RefusedAt(env: Env, limits: Limits, step: nat, calls: nat, t: nat, tail: seq<Effect>, exit: Exit)
    requires 0 < t
  {
    var loaded := env.load(t - 1);
    if loaded.None? then tail == [] && exit == Abnormal
    else if loaded.value.state == CancelRequested then
      tail == [] && exit == if loaded.value.attempt.None? then CancellationConfirmed else Abnormal
    else if loaded.value.state != Running || !loaded.value.owned || loaded.value.attempt.Some? then
      tail == [] && exit == Abnormal
    else if env.cancelled(t) then tail == [] && exit == CancellationConfirmed
    else Barred(env, limits, step, calls, t) && Fails(tail, exit, Healthy(env, limits))
  }

  ghost predicate Refused(env: Env, limits: Limits, step: nat, calls: nat, tail: seq<Effect>, exit: Exit) {
    exists t: nat :: 0 < t && RefusedAt(env, limits, step, calls, t, tail, exit)
  }

  /** A run that ended before it could take another step. */
  ghost predicate Stopped(env: Env, limits: Limits, told: seq<Answer>, calls: nat, trace: seq<Effect>, exit: Exit) {
    && (told != [] ==> Continues(told[|told| - 1], limits))
    && Script(told) <= trace && Refused(env, limits, |told| + 1, calls, trace[|Script(told)|..], exit)
  }

  /**
   * What a run did, told by the answers it got: each but the last led to its calls and the next
   * step, and the last to what it leads to; or the run ended before another step.
   */
  ghost predicate Plays(env: Env, limits: Limits, told: seq<Answer>, calls: nat, trace: seq<Effect>, exit: Exit) {
    && Heard(env, limits, told)
    && (|| Stopped(env, limits, told, calls, trace, exit)
        || (&& told != []
            && var n, first := |told|, Script(told[..|told| - 1]) + [Invoked(|told|)];
            first <= trace && Leads(env, limits, told[n - 1], n, trace[|first|..], exit)))
  }

  // ----- what the answers mean for the work -----

  /** A step that goes on writes nothing. */
  lemma {:induction false} ScriptWritesNothing(told: seq<Answer>)
    ensures NoTerminal(Script(told))
  {
    if told != [] {
      ScriptWritesNothing(told[..|told| - 1]);
    }
  }

  /** The last answer, when it ended the run. */
  ghost predicate Ending(env: Env, limits: Limits, told: seq<Answer>, tail: seq<Effect>, trace: seq<Effect>, exit: Exit) {
    && told != [] && trace == Script(told[..|told| - 1]) + [Invoked(|told|)] + tail
    && Leads(env, limits, told[|told| - 1], |told|, tail, exit)
  }

  lemma PlaysEither(env: Env, limits: Limits, told: seq<Answer>, calls: nat, trace: seq<Effect>, exit: Exit)
    returns (tail: seq<Effect>)
    requires Plays(env, limits, told, calls, trace, exit)
    ensures Stopped(env, limits, told, calls, trace, exit) || Ending(env, limits, told, tail, trace, exit)
  {
    tail := [];
    if !Stopped(env, limits, told, calls, trace, exit) {
      var first := Script(told[..|told| - 1]) + [Invoked(|told|)];
      tail := trace[|first|..];
      assert trace == first + tail;
    }
  }

  /** A run that stopped before a step wrote a failure at most, and that because it was barred. */
  lemma StoppedWrites(env: Env, limits: Limits, told: seq<Answer>, calls: nat, trace: seq<Effect>, exit: Exit)
    requires Stopped(env, limits, told, calls, trace, exit)
    ensures CompletionWritten !in trace && (trace == Script(told) || trace == Script(told) + [FailWritten])
    ensures var step := |told| + 1;
            FailWritten in trace ==> exists t: nat :: Barred(env, limits, step, calls, t)
    ensures exit == CancellationConfirmed ==> CancelSeen(env)
    ensures Healthy(env, limits) ==>
              && trace == Script(told) + [FailWritten] && exit == TerminalCommitted
              && (|told| + 1 > limits.modelSteps || calls > limits.toolCalls)
  {
    var tail, step := trace[|Script(told)|..], |told| + 1;
    assert trace == Script(told) + tail;
    ScriptWritesNothing(told);
    var t: nat :| 0 < t && RefusedAt(env, limits, step, calls, t, tail, exit);
    if Healthy(env, limits) {
      assert SmoothAt(env, limits, env.load(0).value, t - 1) && SmoothAt(env, limits, env.load(0).value, t);
    }
    assert tail != [] ==> Barred(env, limits, step, calls, t);
  }

  /** What is written is written after the last answer. */
  lemma WrittenLast(front: seq<Answer>, n: nat, tail: seq<Effect>, e: Effect)
    requires Terminal(e)
    ensures e in Script(front) + [Invoked(n)] + tail <==> e in tail
  {
    ScriptWritesNothing(front);
  }

  /** The answer ends the work with what it says: it completed or refused, with content that can be delivered. */
  predicate Answered(a: Answer) {
    && a.outcome.Some? && a.outcome.value.Responded? && a.outcome.value.work.state != Settled
    && (a.outcome.value.stop.Completed? || a.outcome.value.stop.Refusal?) && a.contentful
  }

  lemma BreaksWithoutAnswer(env: Env, over: bool, step: nat, calls: nat, tail: seq<Effect>, exit: Exit)
    requires Breaks(env, over, step, calls, tail, exit)
    ensures CompletionWritten !in tail && (FailWritten in tail ==> over || exists t: nat :: env.late(t))
  {
    var n: nat :| BreaksAt(env, over, step, n, calls, tail, exit);
  }

  /** What makes an answer fail the work. */
  ghost predicate Unusable(env: Env, limits: Limits, a: Answer) {
    a.outcome.Some? &&
    match a.outcome.value
    case DeadlineBeforeAttempt(_) => true
    case Failed(_) => true
    case Responded(_, stop) =>
      if stop.ToolContinuation?
      then stop.calls == 0 || !stop.wellFormed || a.calls + stop.calls > limits.toolCalls || exists t: nat :: env.late(t)
      else (stop.Completed? || stop.Refusal?) ==> !a.contentful
    case _ => false
  }

  lemma FailureWrites(tail: seq<Effect>, exit: Exit, sure: bool)
    requires AbandonsAndFails(tail, exit, sure)
    ensures tail == [DraftAbandoned] || tail == [DraftAbandoned, FailWritten]
  {
    assert tail == [DraftAbandoned] + tail[1..];
  }

  lemma ToolsWrite(env: Env, limits: Limits, over: bool, calls: nat, wellFormed: bool, step: nat, tail: seq<Effect>, exit: Exit)
    requires ToolsLead(env, limits, over, calls, wellFormed, step, tail, exit)
    ensures CompletionWritten !in tail
    ensures FailWritten in tail ==> calls == 0 || !wellFormed || over || exists t: nat :: env.late(t)
  {
    var more := tail[1..];
    assert tail == [DraftAbandoned] + more;
    if !Fails(more, exit, Healthy(env, limits)) {
      BreaksWithoutAnswer(env, over, step, calls, more, exit);
    }
  }

  /** What an answer makes the run write. */
  lemma LeadsWrite(env: Env, limits: Limits, a: Answer, step: nat, tail: seq<Effect>, exit: Exit)
    requires Leads(env, limits, a, step, tail, exit)
    ensures CompletionWritten in tail ==> Answered(a) && Commits(a.reply, tail, exit, Healthy(env, limits)) && FailWritten !in tail
    ensures FailWritten in tail ==> Unusable(env, limits, a)
  {
    if a.outcome.Some? && a.outcome.value.Responded? && a.outcome.value.work.state != Settled {
      var stop := a.outcome.value.stop;
      if stop.ToolContinuation? {
        ToolsWrite(env, limits, a.calls + stop.calls > limits.toolCalls, stop.calls, stop.wellFormed, step, tail, exit);
      } else if (!stop.Completed? && !stop.Refusal?) || !a.contentful {
        FailureWrites(tail, exit, Healthy(env, limits));
      }
    }
  }

  /**
   * In every environment a completion is written only after an answer that completed or refused
   * with content, and never beside a failure; where the run then ended the work, its drafts are
   * finalized right after the write.
   */
  lemma CompletionMeansAnswer(env: Env, limits: Limits, told: seq<Answer>, calls: nat, trace: seq<Effect>, exit: Exit)
    requires Plays(env, limits, told, calls, trace, exit) && CompletionWritten in trace
    ensures told != [] && Answered(told[|told| - 1]) && FailWritten !in trace
    ensures exit == TerminalCommitted ==>
              Script(told[..|told| - 1]) + [Invoked(|told|), CompletionWritten, DraftsFinalized] <= trace
  {
    var tail := PlaysEither(env, limits, told, calls, trace, exit);
    if Stopped(env, limits, told, calls, trace, exit) {
      StoppedWrites(env, limits, told, calls, trace, exit);
    }
    WrittenLast(told[..|told| - 1], |told|, tail, CompletionWritten);
    WrittenLast(told[..|told| - 1], |told|, tail, FailWritten);
    LeadsWrite(env, limits, told[|told| - 1], |told|, tail, exit);
    assert exit == TerminalCommitted ==> [CompletionWritten, DraftsFinalized] <= tail;
  }

  /**
   * In every environment a failure is written only when the answer is of no use, by its outcome, its
   * lack of content, its stop reason, malformed or too many calls or a deadline among them, or when a
   * check before the next step bars it.
   */
  lemma FailureMeansCause(env: Env, limits: Limits, told: seq<Answer>, calls: nat, trace: seq<Effect>, exit: Exit)
    requires Plays(env, limits, told, calls, trace, exit) && FailWritten in trace
    ensures var step := |told| + 1;
            (told != [] && Unusable(env, limits, told[|told| - 1])) || exists t: nat :: Barred(env, limits, step, calls, t)
  {
    var tail := PlaysEither(env, limits, told, calls, trace, exit);
    if Stopped(env, limits, told, calls, trace, exit) {
      StoppedWrites(env, limits, told, calls, trace, exit);
    } else {
      WrittenLast(told[..|told| - 1], |told|, tail, FailWritten);
      LeadsWrite(env, limits, told[|told| - 1], |told|, tail, exit);
    }
  }

  /** Where nothing fails the model has answered for a running work. */
  lemma HealthyAnswer(env: Env, limits: Limits, a: Answer)
    requires Healthy(env, limits) && Genuine(env, a)
    ensures a.outcome.Some? && a.outcome.value.Responded? && a.outcome.value.work.state == Running && a.reply != Unplannable
  {
    var t: nat :| env.gateway(t) == a.outcome;
    assert SmoothAt(env, limits, env.load(0).value, t);
    var u: nat :| env.contentful(u) == a.contentful && env.reply(u) == a.reply;
    assert SmoothAt(env, limits, env.load(0).value, u);
  }

  lemma HealthyLeads(env: Env, limits: Limits, a: Answer, step: nat, tail: seq<Effect>, exit: Exit)
    requires Healthy(env, limits) && Genuine(env, a) && Leads(env, limits, a, step, tail, exit)
    ensures exit == TerminalCommitted
    ensures if Answered(a)
            then tail == [CompletionWritten, DraftsFinalized] + (if a.reply == Planned then [Woken] else [])
            else tail == [DraftAbandoned, FailWritten]
  {
    HealthyAnswer(env, limits, a);
    var stop := a.outcome.value.stop;
    if stop.ToolContinuation? || !Answered(a) {
      assert tail == [DraftAbandoned] + tail[1..];
    }
  }

  /**
   * Where nothing fails the work is always ended. An answer that completed or refused with content is
   * committed, its drafts finalized and its deliveries woken; any other that ends the run fails the
   * work; and without one the run fails the work when its steps or calls are used up.
   */
  lemma HealthyEnds(env: Env, limits: Limits, told: seq<Answer>, calls: nat, trace: seq<Effect>, exit: Exit)
    requires Healthy(env, limits) && Plays(env, limits, told, calls, trace, exit)
    ensures exit == TerminalCommitted
    ensures || (&& told != []
                && var a, done := told[|told| - 1], Script(told[..|told| - 1]) + [Invoked(|told|)];
                trace == done + if Answered(a)
                then [CompletionWritten, DraftsFinalized] + (if a.reply == Planned then [Woken] else [])
                else [DraftAbandoned, FailWritten])
            || (&& trace == Script(told) + [FailWritten] && (told != [] ==> Continues(told[|told| - 1], limits))
                && (|told| == limits.modelSteps || calls > limits.toolCalls))
  {
    var tail := PlaysEither(env, limits, told, calls, trace, exit);
    if Stopped(env, limits, told, calls, trace, exit) {
      StoppedWrites(env, limits, told, calls, trace, exit);
      assert told != [] ==> Clear(env, limits, |told|, told[|told| - 1].calls, told[|told| - 1].checked);
    } else {
      assert Genuine(env, told[|told| - 1]);
      HealthyLeads(env, limits, told[|told| - 1], |told|, tail, exit);
    }
  }

  lemma HealthyTerminal(env: Env, limits: Limits, told: seq<Answer>, calls: nat, trace: seq<Effect>, exit: Exit)
    requires Healthy(env, limits) && Plays(env, limits, told, calls, trace, exit)
    ensures exit == TerminalCommitted && HasTerminal(trace)
  {
    HealthyEnds(env, limits, told, calls, trace, exit);
    var n := if told == [] then 0 else |Script(told[..|told| - 1])|;
    if trace == Script(told) + [FailWritten] {
      assert Terminal(trace[|Script(told)|]);
    } else if Answered(told[|told| - 1]) {
      assert Terminal(trace[n + 1]);
    } else {
      assert Terminal(trace[n + 2]);
    }
  }

  // ----- the loop -----

  class AgentRun {
    const env: Env
    const limits: Limits
    const initial: nat
    var clock: nat
    var toolCalls: nat
    var trace: seq<Effect>

    constructor (env: Env, limits: Limits, toolCalls: nat)
      requires ValidLimits(limits)
      ensures this.env == env && this.limits == limits && this.toolCalls == toolCalls && trace == [] && Going(0)
    {
      this.env, this.limits, this.initial, this.toolCalls := env, limits, toolCalls, toolCalls;
      clock, trace := 0, [];
    }

    /** The recorded tool calls are within their limit, or already were not when the run began and none was added. */
    ghost predicate Within()
      reads this
    {
      toolCalls <= limits.toolCalls || toolCalls == initial
    }

    /** `steps` models were invoked, in order, no work was ended, and the recorded calls are within their limit. */
    ghost predicate Going(steps: nat)
      reads this
    {
      ValidLimits(limits) && NoTerminal(trace) && Invocations(trace) == Steps(steps) && steps <= limits.modelSteps
      && Within()
    }

    /** What every run comes to. */
    ghost predicate Over()
      reads this
    {
      && EndsOnce(trace) && Within()
      && |Invocations(trace)| <= limits.modelSteps && Invocations(trace) == Steps(|Invocations(trace)|)
    }

    lemma GoingOver(steps: nat)
      requires Going(steps)
      ensures Over()
    {
    }

    /** The work may be ended, and is still as it was last seen. */
    ghost predicate Unmoved(work: Work, t: nat) {
      && work.state == Running && work.owned && env.transitions(work) && env.load(t).Some?
      && env.load(t).value.state == work.state && env.load(t).value.version == work.version
      && env.load(t).value.attempt == work.attempt
    }

    /** Nothing fails, and the work is as it was loaded. */
    ghost predicate Sure(work: Work) {
      Healthy(env, limits) && Some(work) == env.load(0)
    }

    method LoadOwned() returns (work: Option<Work>)
      modifies this`clock
      ensures clock == old(clock) + 1 && work == env.load(old(clock))
      ensures Healthy(env, limits) ==> work == env.load(0)
    {
      assert Healthy(env, limits) ==> SmoothAt(env, limits, env.load(0).value, clock);
      work := env.load(clock);
      clock := clock + 1;
    }

    method Note(e: Effect)
      requires !Active(e)
      modifies this`trace
      ensures trace == old(trace) + [e] && Invocations(trace) == Invocations(old(trace))
              && Executions(trace) == Executions(old(trace))
    {
      InvocationsAppend(trace, e);
      trace := trace + [e];
    }

    /** The one write that ends the work. */
    method Write(e: Effect, ghost steps: nat)
      requires Terminal(e) && Going(steps)
      modifies this`trace
      ensures Over() && trace == old(trace) + [e]
    {
      EndsWrite(trace, e);
      Note(e);
    }

    /** Fails the work if it is still as it was last seen; the one write it may issue is the last. */
    method FailSnapshot(work: Work, ghost steps: nat) returns (exit: Exit, ghost tail: seq<Effect>)
      requires Going(steps)
      modifies this`clock, this`trace
      ensures Over() && clock >= old(clock)
      ensures trace == old(trace) + tail && Fails(tail, exit, Sure(work))
      ensures tail != [] <==> Unmoved(work, old(clock)) && env.wallClock(old(clock) + 1)
      ensures exit == TerminalCommitted <==> tail != [] && env.write(old(clock) + 1)
    {
      tail := [];
      GoingOver(steps);
      if work.state != Running || !env.transitions(work) || !work.owned {
        return Abnormal, [];
      }
      var current := LoadOwned();
      if current.None? {
        return Abnormal, [];
      }
      if current.value.state != work.state || current.value.version != work.version
         || current.value.attempt != work.attempt {
        return Abnormal, [];
      }
      assert Healthy(env, limits) ==> SmoothAt(env, limits, env.load(0).value, clock);
      if !env.wallClock(clock) {
        return Abnormal, [];
      }
      Write(FailWritten, steps);
      var written := env.write(clock);
      clock := clock + 1;
      return if written then TerminalCommitted else Abnormal, [FailWritten];
    }

    /** Abandons the draft and fails the work. */
    method AbandonAndFail(work: Work, ghost steps: nat) returns (exit: Exit, ghost tail: seq<Effect>)
      requires Going(steps)
      modifies this`clock, this`trace
      ensures Over() && clock >= old(clock)
      ensures trace == old(trace) + tail && AbandonsAndFails(tail, exit, Sure(work)) && CompletionWritten !in tail
    {
      Note(DraftAbandoned);
      ghost var more;
      exit, more := FailSnapshot(work, steps);
      Associates(old(trace), [DraftAbandoned], more);
      tail := [DraftAbandoned] + more;
      assert tail[1..] == more;
    }

    /** Commits the answer of the work, or fails it when the answer has no content. */
    method CommitCompletion(work: Work, ghost steps: nat)
      returns (exit: Exit, ghost contentful: bool, ghost reply: Reply, ghost tail: seq<Effect>)
      requires Going(steps)
      modifies this`clock, this`trace
      ensures Over() && clock >= old(clock) && contentful == env.contentful(old(clock)) && reply == env.reply(old(clock))
      ensures trace == old(trace) + tail && Answers(contentful, reply, tail, exit, Sure(work))
      ensures CompletionWritten in tail <==>
              contentful && env.wallClock(old(clock)) && env.transitions(work) && reply != Unplannable
      ensures contentful && exit == TerminalCommitted <==> CompletionWritten in tail && env.write(old(clock) + 1)
    {
      assert Healthy(env, limits) ==> SmoothAt(env, limits, env.load(0).value, clock);
      contentful, reply, tail := env.contentful(clock), env.reply(clock), [];
      if !env.contentful(clock) {
        exit, tail := AbandonAndFail(work, steps);
        return;
      }
      if !env.wallClock(clock) || !env.transitions(work) {
        return Abnormal, contentful, reply, [];
      }
      var planned := env.reply(clock);
      clock := clock + 1;
      if planned == Unplannable {
        return Abnormal, contentful, reply, [];
      }
      exit, tail := WriteCompletion(planned, steps);
    }

    lemma HealthyWrites(t: nat)
      ensures Healthy(env, limits) ==> env.write(t)
    {
      assert Healthy(env, limits) ==> SmoothAt(env, limits, env.load(0).value, t);
    }

    /** Issues the completion write, and what follows its success or failure. */
    method WriteCompletion(reply: Reply, ghost steps: nat) returns (exit: Exit, ghost tail: seq<Effect>)
      requires Going(steps) && reply != Unplannable
      modifies this`clock, this`trace
      ensures Over() && clock >= old(clock)
      ensures trace == old(trace) + tail && tail != [] && Commits(reply, tail, exit, Healthy(env, limits))
      ensures exit == TerminalCommitted <==> env.write(old(clock))
    {
      HealthyWrites(clock);
      Write(CompletionWritten, steps);
      var written := env.write(clock);
      clock := clock + 1;
      if !written {
        Follow(DraftAbandoned, old(trace), [CompletionWritten], [CompletionWritten, DraftAbandoned]);
        return Abnormal, [CompletionWritten, DraftAbandoned];
      }
      Follow(DraftsFinalized, old(trace), [CompletionWritten], [CompletionWritten, DraftsFinalized]);
      if reply == Planned {
        Follow(Woken, old(trace), [CompletionWritten, DraftsFinalized], [CompletionWritten, DraftsFinalized, Woken]);
        return TerminalCommitted, [CompletionWritten, DraftsFinalized, Woken];
      }
      return TerminalCommitted, [CompletionWritten, DraftsFinalized];
    }

    /** What is done after the completion write. */
    method Follow(e: Effect, ghost before: seq<Effect>, ghost done: seq<Effect>, ghost now: seq<Effect>)
      requires !Active(e) && !Terminal(e) && Over() && trace == before + done && now == done + [e]
      modifies this`trace
      ensures Over() && trace == before + now
    {
      EndsQuiet(trace, e);
      Note(e);
      Associates(before, done, [e]);
    }

    /** One tool call: it is recorded at most once. */
    method ExecuteCall(step: nat, ordinal: nat) returns (outcome: ToolOutcome)
      requires NoTerminal(trace)
      modifies this
      ensures NoTerminal(trace) && trace == old(trace) + [Executed(step, ordinal)] && clock >= old(clock)
      ensures Invocations(trace) == Invocations(old(trace)) && Executions(trace) == Executions(old(trace)) + 1
      ensures old(toolCalls) <= toolCalls <= old(toolCalls) + 1 && clock == old(clock) + 1 && outcome == env.tool(old(clock))
      ensures Healthy(env, limits) ==> outcome == Done
    {
      assert Healthy(env, limits) ==> SmoothAt(env, limits, env.load(0).value, clock);
      InvocationsAppend(trace, Executed(step, ordinal));
      trace := trace + [Executed(step, ordinal)];
      if env.toolRecorded(clock) {
        toolCalls := toolCalls + 1;
      }
      outcome := env.tool(clock);
      clock := clock + 1;
    }

    ghost predicate CancelLoaded(t: nat) {
      env.load(t).Some? && env.load(t).value.state == CancelRequested
    }

    /** One call of a batch, with the cancellation it may meet; `None` means the batch goes on. */
    method NextCall(step: nat, ordinal: nat) returns (exit: Option<Exit>, seen: Work, ghost at: nat)
      requires Going(step) && toolCalls < limits.toolCalls
      modifies this
      ensures Going(step) && clock >= old(clock) && old(toolCalls) <= toolCalls <= old(toolCalls) + |trace| - |old(trace)|
      ensures trace == old(trace) || trace == old(trace) + [Executed(step, ordinal)]
      ensures trace == old(trace) <==> env.cancelArrives(old(clock)) == Before && !CancelLoaded(old(clock))
      ensures trace == old(trace) ==> exit == Some(Abnormal)
      ensures trace != old(trace) ==> exit == CallEnds(env, env.cancelArrives(old(clock)), at)
      ensures Executions(trace) == Executions(old(trace)) + |trace| - |old(trace)|
      ensures exit == Some(CancellationConfirmed) ==> CancelSeen(env)
      ensures Healthy(env, limits) ==> exit == None
    {
      assert Healthy(env, limits) ==> SmoothAt(env, limits, env.load(0).value, clock);
      var arrival := env.cancelArrives(clock);
      at := clock;
      if arrival == Before {
        var owned := LoadOwned();
        if owned.None? || owned.value.state != CancelRequested {
          return Some(Abnormal), *, at;
        }
      }
      at := clock;
      var outcome := ExecuteCall(step, ordinal);
      if arrival == Midway {
        var owned := LoadOwned();
        if owned.None? || owned.value.state != CancelRequested {
          return Some(Abnormal), *, at;
        }
      }
      var forwarded := arrival != Never;
      if outcome == Done {
        if forwarded {
          return Some(TerminalCommitted), *, at;
        }
        var reloaded := LoadOwned();
        if reloaded.None? {
          return Some(Abnormal), *, at;
        }
        return None, reloaded.value, at;
      } else if outcome == OutcomeUnknown {
        return Some(TerminalCommitted), *, at;
      } else if forwarded && outcome == CancelledBeforeIntent {
        return Some(CancellationConfirmed), *, at;
      } else {
        return Some(Abnormal), *, at;
      }
    }

    /** Runs the calls of one response, none of them beyond the limit; `None` means the loop goes on. */
    method ExecuteToolBatch(work: Work, calls: nat, wellFormed: bool, step: nat)
      returns (exit: Option<Exit>, ghost tail: seq<Effect>)
      requires Going(step)
      modifies this
      ensures exit.None? ==> Going(step)
      ensures exit.Some? ==> Over()
      ensures exit == Some(CancellationConfirmed) ==> NoTerminal(trace)
      ensures toolCalls - old(toolCalls) <= Executions(trace) - Executions(old(trace)) <= calls
      ensures old(toolCalls) + calls > limits.toolCalls ==> Executions(trace) == Executions(old(trace))
      ensures trace == old(trace) + tail && BatchLeads(work, old(toolCalls), calls, wellFormed, step, tail, exit)
    {
      tail := [];
      if calls == 0 || !wellFormed {
        var failed;
        failed, tail := FailSnapshot(work, step);
        SameExecutions(old(trace), trace);
        return Some(failed), tail;
      }
      var owned := LoadOwned();
      if owned.None? {
        GoingOver(step);
        BreaksEarly(old(toolCalls), calls, step, [], Abnormal);
        return Some(Abnormal), [];
      }
      if toolCalls + calls > limits.toolCalls {
        var failed;
        failed, tail := FailSnapshot(owned.value, step);
        SameExecutions(old(trace), trace);
        BreaksEarly(old(toolCalls), calls, step, tail, failed);
        return Some(failed), tail;
      }
      exit, tail := ExecuteCalls(work, calls, step);
    }

    /** One round of a batch: the checks before a call, and the call. */
    method CallRound(current: Work, step: nat, ordinal: nat)
      returns (exit: Option<Exit>, seen: Work, ghost more: seq<Effect>)
      requires Going(step) && toolCalls < limits.toolCalls
      modifies this
      ensures exit.None? ==> Going(step) && more == [Executed(step, ordinal)]
      ensures exit.Some? ==> Over() && !Healthy(env, limits) && RoundStops(step, ordinal, more, exit.value)
      ensures exit == Some(CancellationConfirmed) ==> NoTerminal(trace)
      ensures trace == old(trace) + more && toolCalls <= old(toolCalls) + CallsIn(more)
      ensures Executions(trace) == Executions(old(trace)) + CallsIn(more)
    {
      GoingOver(step);
      seen, more := current, [];
      assert Healthy(env, limits) ==> SmoothAt(env, limits, env.load(0).value, clock);
      if env.cancelled(clock) {
        return Some(CancellationConfirmed), current, [];
      }
      if env.late(clock) {
        var failed;
        failed, more := FailSnapshot(current, step);
        SameExecutions(old(trace), trace);
        return Some(failed), current, more;
      }
      ghost var at;
      exit, seen, at := NextCall(step, ordinal);
      GoingOver(step);
      more := if trace == old(trace) then [] else [Executed(step, ordinal)];
    }

    /** How many calls were executed. */
    ghost function CallsIn(more: seq<Effect>): nat {
      if more != [] && more[0].Executed? then 1 else 0
    }

    ghost predicate RoundStops(step: nat, ordinal: nat, more: seq<Effect>, exit: Exit) {
      && (exit == CancellationConfirmed ==> CancelSeen(env))
      && (|| (more == [] && exit != TerminalCommitted) || (more == [Executed(step, ordinal)] && CallBroke(env, exit))
          || (more == [FailWritten] && exit != CancellationConfirmed && exists t: nat :: env.late(t)))
    }

    lemma RoundBreaks(step: nat, index: nat, calls: nat, more: seq<Effect>, exit: Exit)
      requires index < calls && RoundStops(step, index + 1, more, exit)
      ensures Breaks(env, false, step, calls, Calls(step, index) + more, exit)
    {
      CallsNext(step, index);
      if more == [Executed(step, index + 1)] {
        assert BreaksAt(env, false, step, index + 1, calls, Calls(step, index) + more, exit);
      } else {
        assert more == [] ==> Calls(step, index) + more == Calls(step, index);
        assert exit == TerminalCommitted && more == [] ==> false;
        assert BreaksAt(env, false, step, index, calls, Calls(step, index) + more, exit);
      }
    }

    lemma CallsNext(step: nat, index: nat)
      ensures Calls(step, index + 1) == Calls(step, index) + [Executed(step, index + 1)]
    {
    }

    /** Runs calls that fit the limit, in order. */
    method ExecuteCalls(work: Work, calls: nat, step: nat) returns (exit: Option<Exit>, ghost tail: seq<Effect>)
      requires Going(step) && toolCalls + calls <= limits.toolCalls
      modifies this
      ensures exit.None? ==> Going(step) && tail == Calls(step, calls)
      ensures exit.Some? ==> Over() && !Healthy(env, limits) && Breaks(env, false, step, calls, tail, exit.value)
      ensures exit == Some(CancellationConfirmed) ==> NoTerminal(trace)
      ensures toolCalls - old(toolCalls) <= Executions(trace) - Executions(old(trace)) <= calls
      ensures trace == old(trace) + tail
    {
      var current, index := work, 0;
      tail := [];
      while index < calls
        invariant index <= calls && Going(step) && toolCalls + calls - index <= limits.toolCalls
        invariant Executions(trace) == Executions(old(trace)) + index && toolCalls - old(toolCalls) <= index
        invariant tail == Calls(step, index) && trace == old(trace) + tail
      {
        var ended;
        ghost var more;
        ended, current, more := CallRound(current, step, index + 1);
        Associates(old(trace), tail, more);
        if ended.Some? {
          RoundBreaks(step, index, calls, more, ended.value);
          return ended, tail + more;
        }
        CallsNext(step, index);
        tail := tail + more;
        index := index + 1;
      }
      return None, tail;
    }

    lemma BreaksEarly(before: nat, calls: nat, step: nat, tail: seq<Effect>, exit: Exit)
      requires calls > 0 && exit != CancellationConfirmed
      requires (tail == [] && exit == Abnormal) || (tail == [FailWritten] && before + calls > limits.toolCalls)
      ensures Breaks(env, before + calls > limits.toolCalls, step, calls, tail, exit)
    {
      assert Calls(step, 0) == [];
      assert BreaksAt(env, before + calls > limits.toolCalls, step, 0, calls, tail, exit);
    }

    /** What a batch comes to: every call in order, or a part of them, or a failed work. */
    ghost predicate BatchLeads(work: Work, before: nat, calls: nat, wellFormed: bool, step: nat, tail: seq<Effect>,
                               exit: Option<Exit>)
    {
      var over := before + calls > limits.toolCalls;
      if calls == 0 || !wellFormed then exit.Some? && Fails(tail, exit.value, Sure(work))
      else if exit.None? then !over && tail == Calls(step, calls)
      else if Healthy(env, limits) then over && Fails(tail, exit.value, true)
      else Breaks(env, over, step, calls, tail, exit.value)
    }
    /** Invokes the model for the next step. */
    method Invoke(step: nat) returns (outcome: Option<ModelOutcome>)
      requires 1 <= step <= limits.modelSteps && Going(step - 1)
      modifies this`clock, this`trace
      ensures Going(step) && trace == old(trace) + [Invoked(step)] && toolCalls == old(toolCalls)
      ensures clock >= old(clock) && outcome == env.gateway(old(clock))
    {
      InvocationsAppend(trace, Invoked(step));
      assert Steps(step) == Steps(step - 1) + [step];
      trace := trace + [Invoked(step)];
      outcome := env.gateway(clock);
      clock := clock + 1;
    }

    /** Where nothing fails the gateway answers for the work as it was loaded. */
    lemma SureOutcome(t: nat)
      requires Healthy(env, limits)
      ensures env.gateway(t).Some? && env.gateway(t).value.Responded? && Sure(env.gateway(t).value.work)
              && env.gateway(t).value.work.state == Running
    {
      assert SmoothAt(env, limits, env.load(0).value, t);
    }

    /** What a model's outcome leads to; `None` means the loop goes on to the next step. */
    method HandleOutcome(outcome: ModelOutcome, step: nat, ghost checked: nat, ghost t: nat)
      returns (exit: Option<Exit>, ghost contentful: bool, ghost reply: Reply, ghost tail: seq<Effect>)
      requires Going(step) && Some(outcome) == env.gateway(t)
      modifies this
      ensures exit.None? ==> Going(step)
      ensures exit.Some? ==> Over()
      ensures exit == Some(CancellationConfirmed) ==> NoTerminal(trace)
      ensures trace == old(trace) + tail && contentful == env.contentful(old(clock)) && reply == env.reply(old(clock))
      ensures var a := Answer(checked, old(toolCalls), Some(outcome), contentful, reply);
              if exit.None? then Continues(a, limits) && [Invoked(step)] + tail == Scene(step, a)
              else Leads(env, limits, a, step, tail, exit.value)
    {
      contentful, reply, tail := env.contentful(clock), env.reply(clock), [];
      GoingOver(step);
      if Healthy(env, limits) {
        SureOutcome(t);
      }
      match outcome
      case Interrupted => return Some(TerminalCommitted), contentful, reply, [];
      case CancelledBeforeAttempt(work) =>
        return Some(if work.state == Settled then TerminalCommitted else CancellationConfirmed), contentful, reply, [];
      case DeadlineBeforeAttempt(work) =>
        var failed;
        failed, tail := FailSnapshot(work, step);
        return Some(failed), contentful, reply, tail;
      case Failed(work) =>
        var failed;
        failed, tail := FailSnapshot(work, step);
        return Some(failed), contentful, reply, tail;
      case Responded(work, stop) =>
        if work.state == Settled {
          return Some(TerminalCommitted), contentful, reply, [];
        }
        exit, tail := HandleResponse(work, stop, step, checked);
    }

    /** Abandons the draft and runs the calls. */
    method HandleTools(work: Work, calls: nat, wellFormed: bool, step: nat) returns (exit: Option<Exit>, ghost tail: seq<Effect>)
      requires Going(step) && (Healthy(env, limits) ==> Sure(work))
      modifies this
      ensures exit.None? ==> Going(step)
      ensures exit.Some? ==> Over()
      ensures exit == Some(CancellationConfirmed) ==> NoTerminal(trace)
      ensures trace == old(trace) + tail
      ensures var over := old(toolCalls) + calls > limits.toolCalls;
              if exit.None? then 0 < calls && wellFormed && !over && tail == [DraftAbandoned] + Calls(step, calls)
              else ToolsLead(env, limits, over, calls, wellFormed, step, tail, exit.value)
    {
      Note(DraftAbandoned);
      ghost var more;
      exit, more := ExecuteToolBatch(work, calls, wellFormed, step);
      Associates(old(trace), [DraftAbandoned], more);
      tail := [DraftAbandoned] + more;
      assert tail[1..] == more;
    }

    /** What a response leads to. */
    method HandleResponse(work: Work, stop: StopReason, step: nat, ghost checked: nat)
      returns (exit: Option<Exit>, ghost tail: seq<Effect>)
      requires Going(step) && work.state != Settled && (Healthy(env, limits) ==> Sure(work))
      modifies this
      ensures exit.None? ==> Going(step)
      ensures exit.Some? ==> Over()
      ensures exit == Some(CancellationConfirmed) ==> NoTerminal(trace)
      ensures trace == old(trace) + tail
      ensures var a := Answer(checked, old(toolCalls), Some(Responded(work, stop)), env.contentful(old(clock)),
                              env.reply(old(clock)));
              if exit.None? then Continues(a, limits) && [Invoked(step)] + tail == Scene(step, a)
              else Leads(env, limits, a, step, tail, exit.value)
    {
      match stop
      case Completed =>
        var committed, _, _, more := CommitCompletion(work, step);
        return Some(committed), more;
      case Refusal =>
        var committed, _, _, more := CommitCompletion(work, step);
        return Some(committed), more;
      case ToolContinuation(calls, wellFormed) =>
        exit, tail := HandleTools(work, calls, wellFormed, step);
      case _ =>
        var failed, more := AbandonAndFail(work, step);
        return Some(failed), more;
    }

    /** The checks before a step, made at `t`: `Ok` means the step may be taken. */
    method Admit(step: nat) returns (admitted: Result<(), Exit>, ghost t: nat, ghost tail: seq<Effect>)
      requires 1 <= step <= limits.modelSteps + 1 && Going(step - 1)
      modifies this`clock, this`trace
      ensures admitted.Ok? ==> Going(step - 1) && trace == old(trace) && Clear(env, limits, step, toolCalls, t)
      ensures admitted.Err? ==> Over()
      ensures clock >= old(clock) && trace == old(trace) + tail
      ensures admitted.Err? ==> Refused(env, limits, step, toolCalls, tail, admitted.error)
    {
      tail := [];
      GoingOver(step - 1);
      var owned := LoadOwned();
      t := clock;
      assert Healthy(env, limits) ==> SmoothAt(env, limits, env.load(0).value, clock);
      if owned.None? {
        assert RefusedAt(env, limits, step, toolCalls, t, [], Abnormal);
        return Err(Abnormal), t, [];
      }
      var work := owned.value;
      if work.state == CancelRequested {
        var exit := if work.attempt.None? then CancellationConfirmed else Abnormal;
        assert RefusedAt(env, limits, step, toolCalls, t, [], exit);
        return Err(exit), t, [];
      }
      if work.state != Running || !work.owned || work.attempt.Some? {
        assert RefusedAt(env, limits, step, toolCalls, t, [], Abnormal);
        return Err(Abnormal), t, [];
      }
      if env.cancelled(clock) {
        assert RefusedAt(env, limits, step, toolCalls, t, [], CancellationConfirmed);
        return Err(CancellationConfirmed), t, [];
      }
      var attempts := env.modelAttempts(clock);
      if env.late(clock) || step > limits.modelSteps || attempts >= limits.providerAttempts
         || toolCalls > limits.toolCalls {
        var exit;
        exit, tail := FailSnapshot(work, step - 1);
        assert RefusedAt(env, limits, step, toolCalls, t, tail, exit);
        return Err(exit), t, tail;
      }
      if !env.selects(clock) || !env.assembles(clock) {
        var exit;
        exit, tail := FailSnapshot(work, step - 1);
        assert RefusedAt(env, limits, step, toolCalls, t, tail, exit);
        return Err(exit), t, tail;
      }
      if attempts > U32_MAX {
        assert false;
      }
      return Ok(()), t, [];
    }

    lemma HeardNext(told: seq<Answer>, a: Answer)
      requires Heard(env, limits, told) && (told != [] ==> Continues(told[|told| - 1], limits))
      requires Clear(env, limits, |told| + 1, a.calls, a.checked) && Genuine(env, a)
      ensures Heard(env, limits, told + [a])
    {
    }

    lemma ScriptNext(told: seq<Answer>, a: Answer, tail: seq<Effect>)
      requires Heard(env, limits, told) && (told != [] ==> Continues(told[|told| - 1], limits))
      requires Clear(env, limits, |told| + 1, a.calls, a.checked) && Genuine(env, a)
      requires [Invoked(|told| + 1)] + tail == Scene(|told| + 1, a)
      ensures Heard(env, limits, told + [a]) && Script(told + [a]) == Script(told) + [Invoked(|told| + 1)] + tail
    {
      HeardNext(told, a);
      assert (told + [a])[..|told|] == told;
      Associates(Script(told), [Invoked(|told| + 1)], tail);
    }

    lemma PlaysStopped(told: seq<Answer>, tail: seq<Effect>, exit: Exit)
      requires Heard(env, limits, told) && (told != [] ==> Continues(told[|told| - 1], limits))
      requires Refused(env, limits, |told| + 1, toolCalls, tail, exit)
      ensures Plays(env, limits, told, toolCalls, Script(told) + tail, exit)
    {
      assert (Script(told) + tail)[|Script(told)|..] == tail;
      assert Stopped(env, limits, told, toolCalls, Script(told) + tail, exit);
    }

    lemma PlaysOn(told: seq<Answer>, a: Answer, first: seq<Effect>, tail: seq<Effect>, exit: Exit)
      requires Heard(env, limits, told) && (told != [] ==> Continues(told[|told| - 1], limits))
      requires Clear(env, limits, |told| + 1, a.calls, a.checked) && Genuine(env, a)
      requires first == Script(told) + [Invoked(|told| + 1)] && Leads(env, limits, a, |told| + 1, tail, exit)
      ensures Plays(env, limits, told + [a], toolCalls, first + tail, exit)
    {
      HeardNext(told, a);
      assert (told + [a])[..|told|] == told;
      assert (first + tail)[|first|..] == tail;
    }

    /** The answers so far all asked for calls, and what was done is what they lead to. */
    ghost predicate Along(told: seq<Answer>)
      reads this
    {
      Going(|told|) && trace == Script(told) && Heard(env, limits, told) && (told != [] ==> Continues(told[|told| - 1], limits))
    }

    /** The model of a step whose checks passed at `t`, and what the outcome leads to. */
    method TakeAdmitted(step: nat, ghost told: seq<Answer>, ghost t: nat)
      returns (ended: Option<Exit>, ghost a: Answer, ghost tail: seq<Effect>)
      requires step == |told| + 1 && step <= limits.modelSteps && Along(told) && Clear(env, limits, step, toolCalls, t)
      modifies this
      ensures ended.None? ==> Going(step) && Continues(a, limits) && [Invoked(step)] + tail == Scene(step, a)
      ensures ended.Some? ==> Over() && Leads(env, limits, a, step, tail, ended.value)
      ensures ended == Some(CancellationConfirmed) ==> NoTerminal(trace)
      ensures trace == Script(told) + [Invoked(step)] + tail && Genuine(env, a)
      ensures a.checked == t && a.calls == old(toolCalls)
    {
      ghost var at, calls := clock, toolCalls;
      var outcome := Invoke(step);
      GoingOver(step);
      ghost var mid := clock;
      if outcome.None? {
        a := Answer(t, calls, None, env.contentful(mid), env.reply(mid));
        assert env.gateway(at) == a.outcome;
        return Some(Abnormal), a, [];
      }
      ghost var contentful, reply;
      ended, contentful, reply, tail := HandleOutcome(outcome.value, step, t, at);
      a := Answer(t, calls, outcome, contentful, reply);
      assert env.gateway(at) == a.outcome && env.contentful(mid) == a.contentful && env.reply(mid) == a.reply;
    }

    /** One step: its checks, its model, and what the outcome leads to; `None` means the loop goes on. */
    method TakeStep(step: nat, ghost told: seq<Answer>) returns (ended: Option<Exit>, ghost heard: seq<Answer>)
      requires step == |told| + 1 && step <= limits.modelSteps + 1 && Along(told)
      modifies this
      ensures ended.None? ==> |heard| == step <= limits.modelSteps && Along(heard)
      ensures ended.Some? ==> Over() && Plays(env, limits, heard, toolCalls, trace, ended.value)
      ensures ended == Some(CancellationConfirmed) ==> NoTerminal(trace)
    {
      var admitted;
      ghost var t, tail;
      admitted, t, tail := Admit(step);
      if admitted.Err? {
        PlaysStopped(told, tail, admitted.error);
        return Some(admitted.error), told;
      }
      ghost var a;
      ended, a, tail := TakeAdmitted(step, told, t);
      heard := told + [a];
      if ended.Some? {
        PlaysOn(told, a, Script(told) + [Invoked(step)], tail, ended.value);
      } else {
        ScriptNext(told, a, tail);
      }
    }

    /**
     * A whole run. It ends, whatever the store, the gateway, the tools and the clock do: models are
     * invoked for steps 1, 2, ... up to the limit, the recorded tool calls stay within theirs, and
     * the work is ended by at most one write, after which nothing more is invoked or executed. A
     * confirmed cancellation has written nothing. What the run did is what the answers it was told
     * lead to.
     */
    method Run(consistent: bool) returns (exit: Exit, ghost told: seq<Answer>)
      requires Going(0) && trace == []
      modifies this
      ensures Over()
      ensures exit == CancellationConfirmed ==> NoTerminal(trace)
      ensures if consistent then Plays(env, limits, told, toolCalls, trace, exit) else exit == Abnormal && trace == []
      ensures consistent && Healthy(env, limits) ==> exit == TerminalCommitted && HasTerminal(trace)
    {
      GoingOver(0);
      told := [];
      if !consistent {
        return Abnormal, told;
      }
      var step := 1;
      while true
        invariant 1 <= step <= limits.modelSteps + 1 && |told| == step - 1 && Along(told)
        decreases limits.modelSteps + 1 - step
      {
        var ended;
        ended, told := TakeStep(step, told);
        if ended.Some? {
          if Healthy(env, limits) {
            HealthyTerminal(env, limits, told, toolCalls, trace, ended.value);
          }
          return ended.value, told;
        }
        step := step + 1;
      }
    }
  }
}
