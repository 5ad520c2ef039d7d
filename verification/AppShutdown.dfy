/**
 The window-close shutdown: any number of close requests, at most one of which performs
 the teardown on a detached worker with a bounded wait.

 Each close request, worker start, worker return, receive, timeout, phase update and exit
 decision is one `Step`, so late completions and repeated requests interleave freely.
 */
module AppShutdown {
  import opened CoreNotifications

  datatype Outcome = Success | Failure(error: ErrorDetail)

  datatype Phase = NotRequested | ShuttingDown | Terminated | ShutdownFailed(error: ErrorDetail)

  datatype Claim = Perform | AlreadyHandled(phase: Phase)

  const TIMED_OUT := ErrorDetail("desktop.shutdown.timed_out", "runtime", "fatal", false,
    "application shutdown did not complete within the bounded timeout; in-progress teardown was left running rather than forcibly freed")

  /** The detached teardown worker and the result it left in its channel. */
  datatype Worker = NotStarted | Running | Returned(result: Outcome) | Panicked

  /** The thread a successful claim spawns. */
  datatype Attempt =
    | Spawning
    | Waiting(worker: Worker)
    | Finishing(result: Outcome, worker: Worker)
    | Deciding(result: Outcome, worker: Worker)
    | Over(worker: Worker)

  datatype State = State(
    phase: Phase,
    attempts: map<nat, Attempt>,
    teardowns: nat,
    exits: nat,
    confirmed: bool)

  datatype Action =
    | CloseRequested(request: nat)
    | SpawnWorker(request: nat)
    | SpawnFails(request: nat, error: ErrorDetail)
    | WorkReturns(request: nat, result: Outcome)
    | WorkPanics(request: nat)
    | Receive(request: nat)
    | TimeOut(request: nat)
    | Finish(request: nat)
    | Decide(request: nat)

  function Initial(): State { State(NotRequested, map[], 0, 0, false) }

  function ClaimOf(phase: Phase): Claim {
    if phase.NotRequested? then Perform else AlreadyHandled(phase)
  }

  function Claimed(phase: Phase): Phase {
    if phase.NotRequested? then ShuttingDown else phase
  }

  function PhaseOf(result: Outcome): Phase {
    match result
    case Success => Terminated
    case Failure(error) => ShutdownFailed(error)
  }

  function WithWorker(a: Attempt, w: Worker): Attempt {
    match a
    case Spawning => a
    case Waiting(_) => Waiting(w)
    case Finishing(r, _) => Finishing(r, w)
    case Deciding(r, _) => Deciding(r, w)
    case Over(_) => Over(w)
  }

  predicate Works(a: Attempt) { !a.Spawning? && a.worker.Running? }

  predicate Enabled(s: State, a: Action) {
    if a.CloseRequested? then a.request !in s.attempts
    else
      a.request in s.attempts &&
      (var t := s.attempts[a.request];
       match a
       case CloseRequested(_) => true
       case SpawnWorker(_) => t.Spawning?
       case SpawnFails(_, _) => t.Spawning?
       case WorkReturns(_, _) => Works(t)
       case WorkPanics(_) => Works(t)
       case Receive(_) => t.Waiting? && t.worker.Returned?
       case TimeOut(_) => t.Waiting? && !t.worker.NotStarted?
       case Finish(_) => t.Finishing?
       case Decide(_) => t.Deciding?)
  }

  function Set(s: State, request: nat, t: Attempt): State {
    s.(attempts := s.attempts[request := t])
  }

  function Step(s: State, a: Action): State
    requires Enabled(s, a)
  {
    if a.CloseRequested? then
      match ClaimOf(s.phase)
      case Perform => Set(s.(phase := ShuttingDown), a.request, Spawning)
      case AlreadyHandled(Terminated) => s.(exits := s.exits + 1)
      case AlreadyHandled(_) => s
    else
      var t := s.attempts[a.request];
      match a
      case CloseRequested(_) => s
      case SpawnWorker(request) => Set(s.(teardowns := s.teardowns + 1), request, Waiting(Running))
      case SpawnFails(request, error) => Set(s, request, Finishing(Failure(error), NotStarted))
      case WorkReturns(request, result) => Set(s, request, WithWorker(t, Returned(result)))
      case WorkPanics(request) => Set(s, request, WithWorker(t, Panicked))
      case Receive(request) =>
        Set(s.(confirmed := s.confirmed || t.worker.result.Success?), request, Finishing(t.worker.result, t.worker))
      case TimeOut(request) => Set(s, request, Finishing(Failure(TIMED_OUT), t.worker))
      case Finish(request) => Set(s.(phase := PhaseOf(t.result)), request, Deciding(t.result, t.worker))
      case Decide(request) =>
        Set(if t.result.Success? then s.(exits := s.exits + 1) else s, request, Over(t.worker))
  }

  predicate ValidRun(s: State, actions: seq<Action>)
    decreases |actions|
  {
    actions == [] || (Enabled(s, actions[0]) && ValidRun(Step(s, actions[0]), actions[1..]))
  }

  function Run(s: State, actions: seq<Action>): State
    requires ValidRun(s, actions)
    decreases |actions|
  {
    if actions == [] then s else Run(Step(s, actions[0]), actions[1..])
  }

  // --------------------------------------------------------------------- invariant

  /** What the phase says about the one attempt that can exist. */
  ghost predicate AttemptOk(phase: Phase, t: Attempt, teardowns: nat, confirmed: bool) {
    match t
    case Spawning => phase == ShuttingDown && teardowns == 0 && !confirmed
    case Waiting(w) => phase == ShuttingDown && teardowns == 1 && !w.NotStarted? && !confirmed
    case Finishing(r, _) => phase == ShuttingDown && teardowns <= 1 && (r.Success? <==> confirmed)
    case Deciding(r, _) => phase == PhaseOf(r) && teardowns <= 1 && (r.Success? <==> confirmed)
    case Over(_) => (phase.Terminated? || phase.ShutdownFailed?) && teardowns <= 1
                    && (phase.Terminated? <==> confirmed)
  }

  ghost predicate Inv(s: State) {
    && (s.phase.NotRequested? <==> s.attempts == map[])
    && (forall x, y :: x in s.attempts && y in s.attempts ==> x == y)
    && (forall x :: x in s.attempts ==> AttemptOk(s.phase, s.attempts[x], s.teardowns, s.confirmed))
    && (s.attempts == map[] ==> s.teardowns == 0 && s.exits == 0 && !s.confirmed)
    && (s.exits > 0 ==> s.phase.Terminated?)
    && (forall x :: x in s.attempts && s.attempts[x].Over? && s.phase.Terminated? ==> s.exits > 0)
  }

  lemma StepKeepsInv(s: State, a: Action)
    requires Inv(s) && Enabled(s, a)
    ensures Inv(Step(s, a))
  {
    var r := Step(s, a);
    if a.CloseRequested? {
      assert s.phase.NotRequested? ==> r.attempts == map[a.request := Spawning];
    } else {
      assert AttemptOk(s.phase, s.attempts[a.request], s.teardowns, s.confirmed);
      assert r.attempts == map[a.request := r.attempts[a.request]];
    }
  }

  lemma {:induction false} RunKeepsInv(s: State, actions: seq<Action>)
    requires Inv(s) && ValidRun(s, actions)
    ensures Inv(Run(s, actions))
    decreases |actions|
  {
    if actions != [] {
      StepKeepsInv(s, actions[0]);
      RunKeepsInv(Step(s, actions[0]), actions[1..]);
    }
  }

  /** In every run: the teardown starts at most once, at most one request performs it,
      and the process exits only after that teardown returned success in time. */
  lemma ExitNeedsConfirmedTeardown(actions: seq<Action>)
    requires ValidRun(Initial(), actions)
    ensures var s := Run(Initial(), actions);
            && s.teardowns <= 1 && |s.attempts| <= 1
            && (s.exits > 0 ==> s.confirmed && s.teardowns == 1 && s.phase.Terminated?)
  {
    RunKeepsInv(Initial(), actions);
    var s := Run(Initial(), actions);
    RunConfirmed(Initial(), actions);
    if s.attempts != map[] {
      var x :| x in s.attempts;
      assert s.attempts.Keys == {x};
      assert |s.attempts| == |s.attempts.Keys|;
    }
  }

  /** A confirmation comes from a worker that was started. */
  ghost predicate ConfirmedOk(s: State) { Inv(s) && (s.confirmed ==> s.teardowns >= 1) }

  lemma {:induction false} RunConfirmed(s: State, actions: seq<Action>)
    requires ConfirmedOk(s) && ValidRun(s, actions)
    ensures ConfirmedOk(Run(s, actions))
    decreases |actions|
  {
    if actions != [] {
      var a := actions[0];
      StepKeepsInv(s, a);
      if !a.CloseRequested? { assert AttemptOk(s.phase, s.attempts[a.request], s.teardowns, s.confirmed); }
      RunConfirmed(Step(s, a), actions[1..]);
    }
  }

  lemma FailureStep(s: State, a: Action)
    requires Inv(s) && s.phase.ShutdownFailed? && Enabled(s, a)
    ensures Step(s, a).phase == s.phase && Step(s, a).exits == s.exits == 0
  {
    if !a.CloseRequested? { assert AttemptOk(s.phase, s.attempts[a.request], s.teardowns, s.confirmed); }
  }

  /** A recorded failure is final: no later request, late completion or timeout changes
      the phase or makes the process exit. */
  lemma {:induction false} FailureIsFinal(s: State, actions: seq<Action>)
    requires Inv(s) && s.phase.ShutdownFailed? && ValidRun(s, actions)
    ensures Run(s, actions).phase == s.phase && Run(s, actions).exits == 0
    decreases |actions|
  {
    if actions != [] {
      FailureStep(s, actions[0]);
      StepKeepsInv(s, actions[0]);
      FailureIsFinal(Step(s, actions[0]), actions[1..]);
    }
  }

  /** The exit is requested exactly by the decision after a success, and by every close
      request that comes once teardown is done. */
  lemma ExitIff(s: State, a: Action)
    requires Inv(s) && Enabled(s, a)
    ensures Step(s, a).exits == s.exits +
              (if (a.Decide? && s.confirmed) || (a.CloseRequested? && s.phase.Terminated?) then 1 else 0)
  {
    if !a.CloseRequested? { assert AttemptOk(s.phase, s.attempts[a.request], s.teardowns, s.confirmed); }
  }

  /** Once the attempt is over, the process has been told to exit if and only if its teardown
      returned success in time, and otherwise the failure is on record. */
  lemma AttemptEndsInExitOrFailure(actions: seq<Action>, request: nat)
    requires ValidRun(Initial(), actions)
    ensures var s := Run(Initial(), actions);
            request in s.attempts && s.attempts[request].Over? ==>
              && (s.confirmed <==> s.exits > 0)
              && (s.confirmed <==> s.phase.Terminated?) && (!s.confirmed <==> s.phase.ShutdownFailed?)
  {
    RunKeepsInv(Initial(), actions);
    var s := Run(Initial(), actions);
    if request in s.attempts { assert AttemptOk(s.phase, s.attempts[request], s.teardowns, s.confirmed); }
  }

  // ------------------------------------------------------- where a failure comes from

  /** Something that happened that explains this result. */
  ghost predicate Explains(past: seq<Action>, result: Outcome) {
    match result
    case Success => exists r :: WorkReturns(r, Success) in past
    case Failure(error) =>
      (error == TIMED_OUT && exists r :: TimeOut(r) in past)
      || (exists r :: SpawnFails(r, error) in past) || exists r :: WorkReturns(r, Failure(error)) in past
  }

  ghost predicate WorkerExplained(past: seq<Action>, w: Worker) { w.Returned? ==> exists r :: WorkReturns(r, w.result) in past }

  ghost predicate AttemptExplained(past: seq<Action>, t: Attempt) {
    match t
    case Spawning => true
    case Waiting(w) => WorkerExplained(past, w)
    case Finishing(r, w) => Explains(past, r) && WorkerExplained(past, w)
    case Deciding(r, w) => Explains(past, r) && WorkerExplained(past, w)
    case Over(w) => WorkerExplained(past, w)
  }

  ghost predicate Explained(s: State, past: seq<Action>) {
    && (forall x :: x in s.attempts ==> AttemptExplained(past, s.attempts[x]))
    && (s.phase.Terminated? ==> Explains(past, Success))
    && (s.phase.ShutdownFailed? ==> Explains(past, Failure(s.phase.error)))
  }

  lemma MoreExplains(past: seq<Action>, a: Action, result: Outcome)
    ensures Explains(past, result) ==> Explains(past + [a], result)
  {
    assert forall x :: x in past ==> x in past + [a];
  }

  lemma MoreExplainsAttempt(past: seq<Action>, a: Action, t: Attempt)
    requires AttemptExplained(past, t)
    ensures AttemptExplained(past + [a], t)
  {
    assert forall x :: x in past ==> x in past + [a];
    if t.Finishing? || t.Deciding? { MoreExplains(past, a, t.result); }
  }

  lemma StepExplained(s: State, past: seq<Action>, a: Action)
    requires Explained(s, past) && Enabled(s, a)
    ensures Explained(Step(s, a), past + [a])
  {
    assert a in past + [a];
    MoreExplains(past, a, Success);
    if s.phase.ShutdownFailed? { MoreExplains(past, a, Failure(s.phase.error)); }
    forall x | x in s.attempts ensures AttemptExplained(past + [a], s.attempts[x]) { MoreExplainsAttempt(past, a, s.attempts[x]); }
  }

  lemma {:induction false} RunExplained(s: State, past: seq<Action>, actions: seq<Action>)
    requires Explained(s, past) && ValidRun(s, actions)
    ensures Explained(Run(s, actions), past + actions)
    decreases |actions|
  {
    if actions == [] {
      assert past + [] == past;
    } else {
      StepExplained(s, past, actions[0]);
      RunExplained(Step(s, actions[0]), past + [actions[0]], actions[1..]);
      assert past + [actions[0]] + actions[1..] == past + actions;
    }
  }

  /** In every run the recorded failure is the error that happened: the timeout, the failed
      thread start or the teardown's own error; and success is the teardown's success. */
  lemma FailureIsTheCause(actions: seq<Action>)
    requires ValidRun(Initial(), actions)
    ensures var s := Run(Initial(), actions);
            && (s.phase.Terminated? ==> Explains(actions, Success))
            && (s.phase.ShutdownFailed? ==> Explains(actions, Failure(s.phase.error)))
  {
    RunExplained(Initial(), [], actions);
    assert [] + actions == actions;
  }

  // ------------------------------------------------------------------ the coordinator

  class AppShutdownCoordinator {
    var phase: Phase

    constructor ()
      ensures phase == NotRequested
    {
      phase := NotRequested;
    }

    method ClaimShutdown() returns (claim: Claim)
      modifies this
      ensures claim == ClaimOf(old(phase)) && phase == Claimed(old(phase))
    {
      if phase.NotRequested? {
        phase := ShuttingDown;
        return Perform;
      }
      claim := AlreadyHandled(phase);
    }

    method FinishShutdown(result: Outcome)
      modifies this
      ensures phase == PhaseOf(result)
    {
      match result
      case Success => phase := Terminated;
      case Failure(error) => phase := ShutdownFailed(error);
    }
  }
}
