/**
 * Calling a model until it answers: retries of one model inside failover to the next
 * (packages/core/src/runtime/model/model-runner.service.ts with the shipped policies
 * packages/core/src/domain/agent/backoff-retry.policy.ts and sequential-failover.policy.ts).
 */
module ModelRunners {
  import opened Options

  type Model = string
  type Chunk = string
  type Response = string

  const MAX_SAFE_INTEGER := 9007199254740991

  datatype Failure = Failure(kind: string, isTransient: bool, isInvalidRequest: bool, retryAfter: Option<nat>)

  /** How one call ends: with a response, a failure some adapter classified, or any other error. */
  datatype Ending = Answered(response: Response) | FailedWith(failure: Failure) | Crashed(error: string)

  datatype Turn = Turn(chunks: seq<Chunk>, ending: Ending)

  // ---------------------------------------------------------------- the policies

  function Pow2(exponent: nat): (power: nat)
    ensures power > 0
  {
    if exponent == 0 then 1 else 2 * Pow2(exponent - 1)
  }

  /** Delays in whole milliseconds. `base` and `ceiling` are durations already. */
  datatype Backoff = Backoff(maxRetries: int, base: nat, ceiling: nat)

  datatype Delay = NoRetry | Wait(millis: nat) | InvalidDuration

  function Round(x: real): int {
    (x + 0.5).Floor
  }

  function FindDelay(policy: Backoff, failure: Failure, number: nat, jitter: real): (delay: Delay)
    requires number >= 1 && jitter >= 0.0
    ensures delay.Wait? ==> delay.millis <= policy.ceiling
    ensures !delay.NoRetry? <==> failure.isTransient && number <= policy.maxRetries
  {
    if !failure.isTransient then NoRetry
    else if number > policy.maxRetries then NoRetry
    else if failure.retryAfter.Some? then Wait(CappedAt(failure.retryAfter.value, policy.ceiling))
    else
      var window := policy.base * Pow2(number - 1);
      var millis := Jittered(window, jitter);
      if millis > MAX_SAFE_INTEGER then InvalidDuration else Wait(CappedAt(millis, policy.ceiling))
  }

  function CappedAt(millis: nat, ceiling: nat): nat {
    if millis <= ceiling then millis else ceiling
  }

  function Jittered(window: nat, jitter: real): (millis: nat)
    requires jitter >= 0.0
  {
    assert window as real * jitter >= 0.0;
    Round(window as real * jitter)
  }

  lemma {:induction false} JitterNeverStretches(window: nat, jitter: real)
    requires 0.0 <= jitter < 1.0
    ensures Jittered(window, jitter) <= window
  {
    var exact := window as real * jitter;
    assert exact <= window as real by {
      assert window as real * jitter <= window as real * 1.0;
    }
  }

  /**
   * A wait is the one the provider asked for, or at most the window that doubles with every attempt,
   * and always under the ceiling. It is an error only when that window is no safe integer any more.
   */
  lemma {:induction false} WaitsWithinTheWindow(policy: Backoff, failure: Failure, number: nat, jitter: real)
    requires number >= 1 && 0.0 <= jitter < 1.0
    ensures match FindDelay(policy, failure, number, jitter)
      case NoRetry => true
      case Wait(millis) =>
        millis <= policy.ceiling
        && (if failure.retryAfter.Some?
            then millis == CappedAt(failure.retryAfter.value, policy.ceiling)
            else millis <= policy.base * Pow2(number - 1))
      case InvalidDuration => failure.retryAfter.None? && policy.base * Pow2(number - 1) > MAX_SAFE_INTEGER
  {
    JitterNeverStretches(policy.base * Pow2(number - 1), jitter);
  }

  /** Doublings add up, which with one doubling being two says what any number of them is. */
  lemma {:induction false} DoublingsAddUp(some: nat, more: nat)
    ensures Pow2(some + more) == Pow2(some) * Pow2(more) && Pow2(1) == 2
    decreases more
  {
    if more > 0 {
      DoublingsAddUp(some, more - 1);
      assert Pow2(some + more) == 2 * Pow2(some + (more - 1));
    }
  }

  /**
   * The wait before attempt `number` is exactly what the provider asked for, or the jittered window rounded
   * to the nearest whole millisecond, halves upwards, and never more than the ceiling; a number of
   * milliseconds that is no safe integer is refused before it is capped.
   */
  lemma {:induction false} WaitsExactly(policy: Backoff, failure: Failure, number: nat, jitter: real) returns (asked: nat)
    requires number >= 1 && 0.0 <= jitter < 1.0 && failure.isTransient && number <= policy.maxRetries
    ensures if failure.retryAfter.Some? then asked == failure.retryAfter.value
      else
        var exact := (policy.base * Pow2(number - 1)) as real * jitter;
        asked as real - 0.5 <= exact < asked as real + 0.5
    ensures FindDelay(policy, failure, number, jitter) ==
      if failure.retryAfter.None? && asked > 9007199254740991 then InvalidDuration
      else Wait(if asked <= policy.ceiling then asked else policy.ceiling)
  {
    asked := if failure.retryAfter.Some? then failure.retryAfter.value
             else Jittered(policy.base * Pow2(number - 1), jitter);
  }

  /** The model of a queue that follows `attempts` models already tried. */
  function NextModel(queue: Option<seq<Model>>, failure: Failure, attempts: nat): Option<Model>
    requires attempts >= 1
  {
    if queue.None? || failure.isInvalidRequest then None
    else if attempts - 1 < |queue.value| then Some(queue.value[attempts - 1])
    else None
  }

  // ---------------------------------------------------------------- the run

  /** Everything a run depends on; calls are numbered over the whole run. */
  datatype World = World(
    primary: Model,
    queue: Option<seq<Model>>,
    retry: Backoff,
    play: nat -> Turn,
    aborted: nat -> bool,
    jitter: nat -> real)
  {
    ghost predicate Valid() {
      forall call :: 0.0 <= jitter(call) < 1.0
    }

    function Queue(): seq<Model> {
      if queue.None? then [] else queue.value
    }

    function Retries(): nat {
      if retry.maxRetries < 0 then 0 else retry.maxRetries
    }
  }

  /** A wait after call `call`, the `number`th failure in a row of its model. */
  datatype Sleep = Sleep(call: nat, number: nat, millis: nat)

  datatype Reroute = Reroute(from: Model, to: Model, failure: Failure, attempt: nat)

  datatype Outcome =
    | Responded(response: Response, reroutes: seq<Reroute>)
    | Threw(ending: Ending)
    | Exhausted(attempted: seq<Model>, failures: seq<Failure>)
    | RefusedDuration

  /** What a run did: its calls in order, what it yielded and waited, and how it ended. */
  datatype Run = Run(
    calls: seq<Model>,
    emitted: seq<Chunk>,
    sleeps: seq<Sleep>,
    attempted: seq<Model>,
    failures: seq<Failure>,
    reroutes: seq<Reroute>,
    outcome: Outcome)

  /** The variables of the loop as it begins another round, with what was done so far. */
  datatype State = State(
    model: Model,
    attempt: nat,
    calls: seq<Model>,
    sleeps: seq<Sleep>,
    attempted: seq<Model>,
    failures: seq<Failure>,
    reroutes: seq<Reroute>)

  function Begin(world: World): State {
    State(world.primary, 0, [], [], [], [], [])
  }

  datatype Pass = Again(state: State) | Over(run: Run)

  function Finish(state: State, chunks: seq<Chunk>, outcome: Outcome): Pass {
    Over(Run(state.calls, chunks, state.sleeps, state.attempted, state.failures, state.reroutes, outcome))
  }

  /** A failure nobody saw a chunk of: wait and call again, or move to the next model. */
  function Recover(world: World, state: State, call: nat, failure: Failure): Pass
    requires world.Valid() && |state.attempted| >= 1
  {
    var attempt := state.attempt + 1;
    var delay := if world.aborted(call) then NoRetry else FindDelay(world.retry, failure, attempt, world.jitter(call));
    match delay
    case InvalidDuration => Finish(state, [], RefusedDuration)
    case Wait(millis) => Again(state.(attempt := attempt, sleeps := state.sleeps + [Sleep(call, attempt, millis)]))
    case NoRetry =>
      var failures := state.failures + [failure];
      match NextModel(world.queue, failure, |state.attempted|)
      case None => Finish(state.(failures := failures), [], Exhausted(state.attempted, failures))
      case Some(next) =>
        var reroute := Reroute(state.model, next, failure, |state.attempted|);
        Again(state.(model := next, attempt := 0, failures := failures, reroutes := state.reroutes + [reroute]))
  }

  function Called(state: State): State {
    state.(attempted := if state.attempt == 0 then state.attempted + [state.model] else state.attempted,
           calls := state.calls + [state.model])
  }

  function OneRound(world: World, state: State): Pass
    requires world.Valid() && (state.attempt > 0 ==> |state.attempted| >= 1)
  {
    var now := Called(state);
    var call := |state.calls|;
    var turn := world.play(call);
    match turn.ending
    case Answered(response) => Finish(now, turn.chunks, Responded(response, now.reroutes))
    case Crashed(_) => Finish(now, turn.chunks, Threw(turn.ending))
    case FailedWith(failure) =>
      if turn.chunks != [] then Finish(now, turn.chunks, Threw(turn.ending))
      else Recover(world, now, call, failure)
  }

  // ---------------------------------------------------------------- what every round keeps

  /** How often each model was called, one after the other. */
  function Spread(models: seq<Model>, tries: seq<nat>): seq<Model>
    requires |models| == |tries|
  {
    if models == [] then []
    else Spread(models[..|models| - 1], tries[..|tries| - 1]) + Repeat(models[|models| - 1], tries[|tries| - 1])
  }

  function Repeat(model: Model, times: nat): seq<Model> {
    if times == 0 then [] else Repeat(model, times - 1) + [model]
  }

  /** A call that yielded nothing and failed in a way an adapter classified. */
  ghost predicate Silent(turn: Turn) {
    turn.chunks == [] && turn.ending.FailedWith?
  }

  ghost predicate Linked(reroutes: seq<Reroute>, attempted: seq<Model>, failures: seq<Failure>) {
    && |failures| >= |reroutes| && |attempted| > |reroutes|
    && (forall i :: 0 <= i < |reroutes| ==>
          reroutes[i] == Reroute(attempted[i], attempted[i + 1], failures[i], i + 1))
  }

  /** Every model before the last was called at least once and at most one more time than it may be retried. */
  ghost predicate Tried(tries: seq<nat>, retries: nat) {
    forall i :: 0 <= i < |tries| ==> 1 <= tries[i] <= retries + 1
  }

  function Sum(tries: seq<nat>): nat
    decreases |tries|
  {
    if tries == [] then 0 else Sum(tries[..|tries| - 1]) + tries[|tries| - 1]
  }

  /** Model `i` was given up after its last call, for that call's failure, with no retry left to make. */
  ghost predicate GivenUp(world: World, tries: seq<nat>, failures: seq<Failure>, i: nat)
    requires i < |tries| && i < |failures|
  {
    var calls := Sum(tries[..i + 1]);
    && calls >= 1
    && Silent(world.play(calls - 1)) && world.play(calls - 1).ending.failure == failures[i]
    && (world.aborted(calls - 1) || !failures[i].isTransient || tries[i] == world.Retries() + 1)
  }

  /** Every model that another was tried after was given up, and for a request the next may be sent as well. */
  ghost predicate RightlyRerouted(world: World, tries: seq<nat>, failures: seq<Failure>, reroutes: nat) {
    && reroutes <= |tries| && reroutes <= |failures|
    && forall i :: 0 <= i < reroutes ==> GivenUp(world, tries, failures, i) && !failures[i].isInvalidRequest
  }

  /** Every wait is what the policy answered for the failure it follows. */
  ghost predicate RightlySlept(world: World, sleeps: seq<Sleep>) {
    forall i :: 0 <= i < |sleeps| ==> Slept(world, sleeps[i])
  }

  ghost predicate Slept(world: World, sleep: Sleep) {
    && sleep.number >= 1 && !world.aborted(sleep.call)
    && Silent(world.play(sleep.call)) && world.jitter(sleep.call) >= 0.0
    && FindDelay(world.retry, world.play(sleep.call).ending.failure, sleep.number, world.jitter(sleep.call))
         == Wait(sleep.millis)
  }

  /** The models tried so far, the current one included. */
  function Attempts(state: State): seq<Model> {
    if state.attempt == 0 then state.attempted + [state.model] else state.attempted
  }

  /** The models tried are the first of the primary and its queue, and end in the current one. */
  ghost predicate InOrder(world: World, attempts: seq<Model>, model: Model) {
    attempts != [] && attempts <= [world.primary] + world.Queue() && attempts[|attempts| - 1] == model
  }

  /** One failure, one reroute and one count of calls for each model given up. */
  ghost predicate Recorded(attempts: seq<Model>, reroutes: seq<Reroute>, failures: seq<Failure>, tries: seq<nat>) {
    |failures| == |reroutes| == |tries| == |attempts| - 1 && Linked(reroutes, attempts, failures)
  }

  /** The calls made are those of the models given up, and the failed ones of the current model. */
  ghost predicate Counted(world: World, attempts: seq<Model>, state: State, tries: seq<nat>) {
    && |tries| < |attempts|
    && Tried(tries, world.Retries()) && state.attempt <= world.Retries()
    && state.calls == Spread(attempts[..|tries|], tries) + Repeat(state.model, state.attempt)
    && |state.calls| == |state.sleeps| + |state.reroutes|
  }

  ghost predicate AllSilent(world: World, calls: nat) {
    forall i :: 0 <= i < calls ==> Silent(world.play(i))
  }

  /** What holds between rounds; `tries` counts the calls of each model given up. */
  ghost predicate Good(world: World, state: State, tries: seq<nat>) {
    var attempts := Attempts(state);
    && InOrder(world, attempts, state.model)
    && Recorded(attempts, state.reroutes, state.failures, tries)
    && Counted(world, attempts, state, tries)
    && AllSilent(world, |state.calls|)
    && RightlyRerouted(world, tries, state.failures, |tries|) && RightlySlept(world, state.sleeps)
  }

  /** What holds of a finished run. */
  ghost predicate Finished(world: World, run: Run, tries: seq<nat>) {
    && run.attempted != [] && run.attempted <= [world.primary] + world.Queue()
    && |run.reroutes| == |run.attempted| - 1 && Linked(run.reroutes, run.attempted, run.failures)
    && |tries| == |run.attempted| && Tried(tries, world.Retries())
    && run.calls == Spread(run.attempted, tries)
    && run.calls != []
    && AllSilent(world, |run.calls| - 1)
    && run.emitted == world.play(|run.calls| - 1).chunks
    && RightlyRerouted(world, tries, run.failures, |run.reroutes|) && RightlySlept(world, run.sleeps)
    && |run.calls| == |run.sleeps| + |run.reroutes| + 1
    && Explained(world, run, tries)
  }

  /** Why a run ended as it did. */
  ghost predicate Explained(world: World, run: Run, tries: seq<nat>)
    requires run.calls != [] && |tries| == |run.attempted| >= 1
  {
    var last := world.play(|run.calls| - 1);
    match run.outcome
    case Responded(response, reroutes) => last.ending == Answered(response) && reroutes == run.reroutes
    case Threw(ending) => ending == last.ending && !ending.Answered? && !Silent(last)
    case RefusedDuration => Silent(last) && world.retry.maxRetries > 0
    case Exhausted(attempted, failures) =>
      && Silent(last)
      && attempted == run.attempted && failures == run.failures
      && |failures| == |attempted| && failures[|failures| - 1] == last.ending.failure
      && (|| world.queue.None? || last.ending.failure.isInvalidRequest
          || run.attempted == [world.primary] + world.Queue())
      && (|| world.aborted(|run.calls| - 1) || !last.ending.failure.isTransient
          || tries[|tries| - 1] == world.Retries() + 1)
  }

  lemma {:induction false} BeginIsGood(world: World)
    ensures Good(world, Begin(world), [])
  {
    assert [] + [world.primary] == [world.primary];
    assert [world.primary][..0] == [];
  }

  lemma {:induction false} CallsGrow(world: World, state: State, tries: seq<nat>)
    requires Good(world, state, tries)
    ensures var now := Called(state);
      && now.attempted == Attempts(state)
      && now.calls == Spread(now.attempted[..|tries|], tries) + Repeat(state.model, state.attempt + 1)
      && now.calls == Spread(now.attempted, tries + [state.attempt + 1])
      && Tried(tries + [state.attempt + 1], world.Retries())
  {
    var attempts := Attempts(state);
    var more := tries + [state.attempt + 1];
    assert more[..|tries|] == tries;
    assert Called(state).calls
      == Spread(attempts[..|tries|], tries) + (Repeat(state.model, state.attempt) + [state.model]);
  }

  lemma {:induction false} RepeatLength(model: Model, times: nat)
    ensures |Repeat(model, times)| == times
  {
    if times > 0 {
      RepeatLength(model, times - 1);
    }
  }

  lemma {:induction false} SpreadLength(models: seq<Model>, tries: seq<nat>)
    requires |models| == |tries|
    ensures |Spread(models, tries)| == Sum(tries)
    decreases |models|
  {
    if models != [] {
      SpreadLength(models[..|models| - 1], tries[..|tries| - 1]);
      RepeatLength(models[|models| - 1], tries[|tries| - 1]);
    }
  }

  /** What was rightly given up stays so as the run goes on. */
  lemma {:induction false} StaysRightlyRerouted(
    world: World, tries: seq<nat>, failures: seq<Failure>, moreTries: seq<nat>, moreFailures: seq<Failure>, reroutes: nat)
    requires RightlyRerouted(world, tries, failures, reroutes) && tries <= moreTries && failures <= moreFailures
    ensures RightlyRerouted(world, moreTries, moreFailures, reroutes)
  {
    forall i | 0 <= i < reroutes
      ensures GivenUp(world, moreTries, moreFailures, i) && !moreFailures[i].isInvalidRequest
    {
      assert moreTries[..i + 1] == tries[..i + 1];
      assert GivenUp(world, tries, failures, i);
    }
  }

  lemma {:induction false} CallsSoFar(world: World, state: State, tries: seq<nat>)
    requires Good(world, state, tries)
    ensures Sum(tries + [state.attempt + 1]) == |state.calls| + 1
  {
    CallsGrow(world, state, tries);
    SpreadLength(Called(state).attempted, tries + [state.attempt + 1]);
  }

  /** The model a round leaves behind has no retry to make, and its request is worth sending on. */
  lemma {:induction false} LeftBehind(world: World, state: State, tries: seq<nat>, more: seq<nat>, failures: seq<Failure>)
    requires world.Valid() && Good(world, state, tries)
    requires OneRound(world, state).Again? && OneRound(world, state).state.attempt == 0
    requires more == tries + [state.attempt + 1] && failures == OneRound(world, state).state.failures
    ensures |failures| == |more| && state.failures <= failures
    ensures GivenUp(world, more, failures, |tries|) && !failures[|tries|].isInvalidRequest
  {
    CallsSoFar(world, state, tries);
    assert more[..|tries| + 1] == more;
    assert Silent(world.play(|state.calls|));
  }

  /** A model is only left behind when there is no retry to make, and with a request worth sending on. */
  lemma {:induction false} ReroutedRightly(world: World, state: State, tries: seq<nat>)
    requires world.Valid() && Good(world, state, tries)
    requires OneRound(world, state).Again? && OneRound(world, state).state.attempt == 0
    ensures RightlyRerouted(world, tries + [state.attempt + 1], OneRound(world, state).state.failures, |tries| + 1)
  {
    var failures, more := OneRound(world, state).state.failures, tries + [state.attempt + 1];
    LeftBehind(world, state, tries, more, failures);
    StaysRightlyRerouted(world, tries, state.failures, more, failures, |tries|);
  }

  /** What a run that is over took along from its last round. */
  lemma {:induction false} LeavesOff(world: World, state: State)
    requires world.Valid() && (state.attempt > 0 ==> |state.attempted| >= 1)
    requires OneRound(world, state).Over?
    ensures var run := OneRound(world, state).run;
      && run.calls == Called(state).calls && run.attempted == Called(state).attempted
      && run.emitted == world.play(|state.calls|).chunks
      && run.sleeps == state.sleeps && run.reroutes == state.reroutes && state.failures <= run.failures
  {
  }

  /** A round that ends the run. */
  lemma {:induction false} OverIsFinished(world: World, state: State, tries: seq<nat>)
    requires world.Valid() && Good(world, state, tries)
    requires OneRound(world, state).Over?
    ensures Finished(world, OneRound(world, state).run, tries + [state.attempt + 1])
  {
    var run, more := OneRound(world, state).run, tries + [state.attempt + 1];
    CallsGrow(world, state, tries);
    LeavesOff(world, state);
    assert |run.calls| == |state.calls| + 1;
    EndsForAReason(world, state, tries, run, more);
    StaysRightlyRerouted(world, tries, state.failures, more, run.failures, |tries|);
  }

  lemma {:induction false} EndsForAReason(world: World, state: State, tries: seq<nat>, run: Run, more: seq<nat>)
    requires world.Valid() && Good(world, state, tries)
    requires OneRound(world, state) == Over(run) && more == tries + [state.attempt + 1]
    ensures run.calls != [] && |more| == |run.attempted| && Explained(world, run, more)
  {
    CallsGrow(world, state, tries);
    LeavesOff(world, state);
    if Silent(world.play(|state.calls|)) {
      OutOfOptions(world, state, tries);
    }
  }

  /** A silent failure ends the run only when neither a retry nor another model is left. */
  lemma {:induction false} OutOfOptions(world: World, state: State, tries: seq<nat>)
    requires world.Valid() && Good(world, state, tries)
    requires OneRound(world, state).Over? && Silent(world.play(|state.calls|))
    ensures var run := OneRound(world, state).run;
      && run.calls != [] && run.attempted == Attempts(state)
      && Explained(world, run, tries + [state.attempt + 1])
  {
    CallsGrow(world, state, tries);
    var now, call := Called(state), |state.calls|;
    var failure := world.play(call).ending.failure;
    var run := OneRound(world, state).run;
    if run.outcome.Exhausted? {
      var all := [world.primary] + world.Queue();
      if world.queue.Some? && !failure.isInvalidRequest {
        assert |now.attempted| - 1 >= |world.queue.value|;
        assert now.attempted == all;
      }
    }
  }

  /** The state after a wait: another call of the same model. */
  ghost predicate Waited(world: World, state: State, next: State, millis: nat) {
    var sleep := Sleep(|state.calls|, state.attempt + 1, millis);
    && next == Called(state).(attempt := state.attempt + 1, sleeps := state.sleeps + [sleep])
    && Slept(world, sleep) && state.attempt < world.Retries()
  }

  /** The state after a reroute: a first call of the next model. */
  ghost predicate Moved(world: World, state: State, next: State) {
    && Silent(world.play(|state.calls|))
    && var now, failure := Called(state), world.play(|state.calls|).ending.failure;
    var reroute := Reroute(state.model, next.model, failure, |now.attempted|);
    && next == now.(model := next.model, attempt := 0, failures := state.failures + [failure],
                    reroutes := state.reroutes + [reroute])
    && 1 <= |now.attempted| <= |world.Queue()| && next.model == world.Queue()[|now.attempted| - 1]
  }

  /** A round goes on with a wait or with another model. */
  lemma {:induction false} GoesOn(world: World, state: State)
    requires world.Valid() && (state.attempt > 0 ==> |state.attempted| >= 1)
    requires OneRound(world, state).Again?
    ensures var next := OneRound(world, state).state;
      if next.attempt > 0 then exists millis :: Waited(world, state, next, millis) else Moved(world, state, next)
  {
    var next := OneRound(world, state).state;
    if next.attempt > 0 {
      assert Waited(world, state, next, next.sleeps[|state.sleeps|].millis);
    }
  }

  /** A round after which the loop goes on. */
  lemma {:induction false} AgainIsGood(world: World, state: State, tries: seq<nat>) returns (after: seq<nat>)
    requires world.Valid() && Good(world, state, tries)
    requires OneRound(world, state).Again?
    ensures var next := OneRound(world, state).state;
      && Good(world, next, after)
      && (|| |Attempts(next)| > |Attempts(state)|
          || (|Attempts(next)| == |Attempts(state)| && next.attempt > state.attempt))
  {
    var next := OneRound(world, state).state;
    GoesOn(world, state);
    if next.attempt > 0 {
      after := tries;
      var millis :| Waited(world, state, next, millis);
      WaitedIsGood(world, state, next, tries, millis);
    } else {
      after := tries + [state.attempt + 1];
      ReroutedRightly(world, state, tries);
      MovedIsGood(world, state, next, tries);
    }
  }

  /** Another call of the same model. */
  lemma {:induction false} WaitedIsGood(world: World, state: State, next: State, tries: seq<nat>, millis: nat)
    requires Good(world, state, tries) && Waited(world, state, next, millis)
    ensures Good(world, next, tries) && Attempts(next) == Attempts(state) && next.attempt > state.attempt
  {
    WaitCounts(world, Attempts(state), state, next, tries, millis);
    OneMoreSlept(world, state.sleeps, Sleep(|state.calls|, state.attempt + 1, millis));
    OneMoreSilent(world, |state.calls|);
  }

  lemma {:induction false} OneMoreSlept(world: World, sleeps: seq<Sleep>, sleep: Sleep)
    requires RightlySlept(world, sleeps) && Slept(world, sleep)
    ensures RightlySlept(world, sleeps + [sleep])
  {
  }

  lemma {:induction false} OneMoreSilent(world: World, calls: nat)
    requires AllSilent(world, calls) && Silent(world.play(calls))
    ensures AllSilent(world, calls + 1)
  {
  }

  lemma {:induction false} WaitCounts(
    world: World, attempts: seq<Model>, state: State, next: State, tries: seq<nat>, millis: nat)
    requires Counted(world, attempts, state, tries) && Waited(world, state, next, millis)
    ensures Counted(world, attempts, next, tries)
  {
    var front := Spread(attempts[..|tries|], tries);
    assert next.calls == front + (Repeat(state.model, state.attempt) + [state.model]);
  }

  /** One more model tried keeps the attempts a prefix of the primary and its queue. */
  lemma {:induction false} NextStaysInOrder(before: seq<Model>, all: seq<Model>, next: Model)
    requires before <= all && |before| < |all| && next == all[|before|]
    ensures before + [next] <= all && (before + [next])[..|before|] == before
  {
    assert before + [next] == all[..|before| + 1];
  }

  lemma {:induction false} StaysLinked(
    reroutes: seq<Reroute>, attempted: seq<Model>, failures: seq<Failure>, next: Model, failure: Failure)
    requires Linked(reroutes, attempted, failures) && |reroutes| == |failures| == |attempted| - 1
    ensures var reroute := Reroute(attempted[|attempted| - 1], next, failure, |attempted|);
      Linked(reroutes + [reroute], attempted + [next], failures + [failure])
  {
  }

  lemma {:induction false} MoveCounts(world: World, attempts: seq<Model>, state: State, next: State, tries: seq<nat>)
    requires Good(world, state, tries) && Moved(world, state, next)
    requires attempts == Attempts(state) + [next.model]
    ensures Counted(world, attempts, next, tries + [state.attempt + 1])
  {
    CallsGrow(world, state, tries);
    assert attempts[..|tries| + 1] == Attempts(state);
    assert Repeat(next.model, 0) == [] && next.calls + [] == next.calls;
  }

  /** A first call of the next model. */
  lemma {:induction false} MovedIsGood(world: World, state: State, next: State, tries: seq<nat>)
    requires Good(world, state, tries) && Moved(world, state, next)
    requires RightlyRerouted(world, tries + [state.attempt + 1], next.failures, |tries| + 1)
    ensures Good(world, next, tries + [state.attempt + 1]) && |Attempts(next)| > |Attempts(state)|
  {
    var before, failure := Attempts(state), world.play(|state.calls|).ending.failure;
    assert Called(state).attempted == before;
    NextStaysInOrder(before, [world.primary] + world.Queue(), next.model);
    StaysLinked(state.reroutes, before, state.failures, next.model, failure);
    MoveCounts(world, before + [next.model], state, next, tries);
    OneMoreSilent(world, |state.calls|);
  }

  /** The run after some rounds: about to begin another, or over. */
  function After(world: World, rounds: nat): (pass: Pass)
    requires world.Valid()
    ensures pass.Again? && pass.state.attempt > 0 ==> |pass.state.attempted| >= 1
    decreases rounds
  {
    if rounds == 0 then Again(Begin(world))
    else
      var before := After(world, rounds - 1);
      if before.Again? then OneRound(world, before.state) else before
  }

  ghost predicate Sound(world: World, pass: Pass, tries: seq<nat>) {
    match pass
    case Again(state) => Good(world, state, tries)
    case Over(run) => Finished(world, run, tries)
  }

  lemma {:induction false} OneRoundIsSound(world: World, state: State, tries: seq<nat>) returns (after: seq<nat>)
    requires world.Valid() && Sound(world, Again(state), tries)
    ensures Sound(world, OneRound(world, state), after)
  {
    if OneRound(world, state).Over? {
      OverIsFinished(world, state, tries);
      after := tries + [state.attempt + 1];
    } else {
      after := AgainIsGood(world, state, tries);
    }
  }

  /** Every round keeps what holds between rounds; a run that is over is finished as it should be. */
  lemma {:induction false} RoundsAreSound(world: World, rounds: nat) returns (tries: seq<nat>)
    requires world.Valid()
    ensures Sound(world, After(world, rounds), tries)
    decreases rounds
  {
    if rounds == 0 {
      tries := [];
      BeginIsGood(world);
    } else {
      tries := RoundsAreSound(world, rounds - 1);
      var before := After(world, rounds - 1);
      if before.Again? {
        tries := OneRoundIsSound(world, before.state, tries);
      }
    }
  }

  /** The models and the retries a run has left. */
  function ModelsLeft(world: World, state: State): int {
    |world.Queue()| + 1 - |Attempts(state)|
  }

  function RetriesLeft(world: World, state: State): int {
    world.Retries() - state.attempt
  }

  /** A round after which the run goes on leaves fewer retries of the same model, or fewer models. */
  lemma {:induction false} RoundsRunOut(world: World, rounds: nat, state: State, next: State)
    requires world.Valid() && After(world, rounds) == Again(state) && OneRound(world, state) == Again(next)
    ensures ModelsLeft(world, next) >= 0 && RetriesLeft(world, next) >= 0
    ensures || ModelsLeft(world, next) < ModelsLeft(world, state)
            || (ModelsLeft(world, next) == ModelsLeft(world, state) && RetriesLeft(world, next) < RetriesLeft(world, state))
  {
    var tries := RoundsAreSound(world, rounds);
    var after := AgainIsGood(world, state, tries);
  }

  lemma {:induction false} GoesThrough(world: World, rounds: nat, state: State)
    requires world.Valid() && After(world, rounds) == Again(state)
    ensures After(world, rounds + 1) == OneRound(world, state)
  {
  }

  /** The generator: round after round of its endless loop. */
  method Stream(world: World) returns (run: Run)
    requires world.Valid()
    ensures exists rounds :: After(world, rounds) == Over(run)
    ensures exists tries :: Finished(world, run, tries)
  {
    var state := Begin(world);
    ghost var rounds := 0;
    while true
      invariant After(world, rounds) == Again(state)
      decreases ModelsLeft(world, state), RetriesLeft(world, state)
    {
      GoesThrough(world, rounds, state);
      var pass := CallOnce(world, state);
      if pass.Over? {
        ghost var tries := RoundsAreSound(world, rounds + 1);
        return pass.run;
      }
      RoundsRunOut(world, rounds, state, pass.state);
      state, rounds := pass.state, rounds + 1;
    }
  }

  /** One turn of the loop, with the variables it updates. */
  method CallOnce(world: World, state: State) returns (pass: Pass)
    requires world.Valid() && (state.attempt > 0 ==> |state.attempted| >= 1)
    ensures pass == OneRound(world, state)
  {
    var model, attempt, attempted := state.model, state.attempt, state.attempted;
    var calls, sleeps, failures, reroutes := state.calls, state.sleeps, state.failures, state.reroutes;
    if attempt == 0 {
      attempted := attempted + [model];
    }
    var call := |calls|;
    calls := calls + [model];
    var turn := world.play(call);
    if turn.ending.Answered? {
      return Over(Run(calls, turn.chunks, sleeps, attempted, failures, reroutes, Responded(turn.ending.response, reroutes)));
    }
    if turn.ending.Crashed? || |turn.chunks| > 0 {
      return Over(Run(calls, turn.chunks, sleeps, attempted, failures, reroutes, Threw(turn.ending)));
    }
    var failure := turn.ending.failure;
    attempt := attempt + 1;
    var delay := if world.aborted(call) then NoRetry else FindDelay(world.retry, failure, attempt, world.jitter(call));
    if delay.InvalidDuration? {
      return Over(Run(calls, [], sleeps, attempted, failures, reroutes, RefusedDuration));
    }
    if delay.Wait? {
      sleeps := sleeps + [Sleep(call, attempt, delay.millis)];
      return Again(State(model, attempt, calls, sleeps, attempted, failures, reroutes));
    }
    failures := failures + [failure];
    var next := NextModel(world.queue, failure, |attempted|);
    if next.None? {
      return Over(Run(calls, [], sleeps, attempted, failures, reroutes, Exhausted(attempted, failures)));
    }
    reroutes := reroutes + [Reroute(model, next.value, failure, |attempted|)];
    model, attempt := next.value, 0;
    pass := Again(State(model, attempt, calls, sleeps, attempted, failures, reroutes));
  }

  // ---------------------------------------------------------------- how many calls

  lemma {:induction false} SumBound(tries: seq<nat>, most: nat)
    requires forall i :: 0 <= i < |tries| ==> tries[i] <= most
    ensures Sum(tries) <= |tries| * most
    decreases |tries|
  {
    if tries != [] {
      var n := |tries| - 1;
      SumBound(tries[..n], most);
      assert |tries| * most == n * most + most;
    }
  }

  /** A run makes at most one call more than the retries, for each of the models it may try. */
  lemma {:induction false} CallsAreBounded(world: World, run: Run, tries: seq<nat>)
    requires Finished(world, run, tries)
    ensures |run.calls| <= (|world.Queue()| + 1) * (world.Retries() + 1)
  {
    SpreadLength(run.attempted, tries);
    assert |run.attempted| <= |[world.primary] + world.Queue()|;
    AtMost(tries, |world.Queue()| + 1, world.Retries() + 1);
  }

  lemma {:induction false} AtMost(tries: seq<nat>, models: nat, most: nat)
    requires |tries| <= models && forall i :: 0 <= i < |tries| ==> tries[i] <= most
    ensures Sum(tries) <= models * most
  {
    SumBound(tries, most);
    assert |tries| * most <= models * most;
  }

  /** Chunks come from the last call alone: every other call yielded nothing. */
  lemma {:induction false} ChunksFromOneCall(world: World, run: Run, tries: seq<nat>, call: nat)
    requires Finished(world, run, tries) && call < |run.calls| && world.play(call).chunks != []
    ensures call == |run.calls| - 1 && run.emitted == world.play(call).chunks
  {
    assert call < |run.calls| - 1 ==> Silent(world.play(call));
  }

  /** However long a provider asked to be left alone, no wait passes the ceiling. */
  lemma {:induction false} WaitsUnderTheCeiling(world: World, run: Run, tries: seq<nat>, at: nat)
    requires Finished(world, run, tries) && at < |run.sleeps|
    ensures run.sleeps[at].millis <= world.retry.ceiling
  {
    assert Slept(world, run.sleeps[at]);
  }
}
