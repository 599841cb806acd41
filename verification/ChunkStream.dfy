/**
 * Chunks handed from the code that emits them to the one generator that drains them
 * (packages/core/src/runtime/stream/chunk-stream.service.ts). Everything runs on one thread: between two
 * moves nothing else happens.
 */
module ChunkStreams {
  type Chunk = string

  /**
   * Where the draining generator stands: not asked yet, having yielded a chunk, parked on a promise,
   * about to go on because the promise was resolved, or returned.
   */
  datatype Phase = Idle | Yielded | Parked | Woken | Returned

  datatype State = State(pending: seq<Chunk>, closed: bool, wake: bool, phase: Phase, delivered: seq<Chunk>)

  const START := State([], false, false, Idle, [])

  /** `Ask` is the consumer asking for a chunk; `GoOn` is the generator going on after it was woken. */
  datatype Move = Emit(chunk: Chunk) | Close | Ask | GoOn

  predicate CanMove(state: State, move: Move) {
    match move
    case Ask => state.phase.Idle? || state.phase.Yielded?
    case GoOn => state.phase.Woken?
    case _ => true
  }

  function Released(state: State): State {
    state.(wake := false, phase := if state.wake then Woken else state.phase)
  }

  /** The generator runs until it yields, returns or parks. */
  function Drained(state: State): State {
    if state.pending != [] then
      state.(pending := state.pending[1..], delivered := state.delivered + [state.pending[0]], phase := Yielded)
    else if state.closed then state.(phase := Returned)
    else state.(wake := true, phase := Parked)
  }

  function Step(state: State, move: Move): State {
    match move
    case Emit(chunk) => if state.closed then state else Released(state.(pending := state.pending + [chunk]))
    case Close => Released(state.(closed := true))
    case Ask => Drained(state)
    case GoOn => Drained(state)
  }

  /** A run of moves from the start, each possible when it is made. */
  ghost predicate IsRun(moves: seq<Move>)
    decreases |moves|
  {
    moves == [] ||
    var front := moves[..|moves| - 1];
    (IsRun(front) && CanMove(After(front), moves[|moves| - 1]))
  }

  function After(moves: seq<Move>): State
    decreases |moves|
  {
    if moves == [] then START else Step(After(moves[..|moves| - 1]), moves[|moves| - 1])
  }

  /** What was emitted before the stream was closed. */
  function Accepted(moves: seq<Move>): seq<Chunk>
    decreases |moves|
  {
    if moves == [] then []
    else
      var front, last := moves[..|moves| - 1], moves[|moves| - 1];
      Accepted(front) + if last.Emit? && Close !in front then [last.chunk] else []
  }

  ghost predicate Sound(moves: seq<Move>, state: State) {
    && state.delivered + state.pending == Accepted(moves)
    && (state.closed <==> Close in moves)
    && (state.wake <==> state.phase.Parked?)
    && (state.phase.Parked? ==> state.pending == [] && !state.closed)
    && (state.phase.Returned? ==> state.pending == [] && state.closed)
  }

  lemma {:induction false} StepKeepsSound(moves: seq<Move>, state: State, move: Move)
    requires Sound(moves, state) && CanMove(state, move)
    ensures Sound(moves + [move], Step(state, move))
  {
    var more, next := moves + [move], Step(state, move);
    assert more[..|moves|] == moves;
    assert Close in more <==> Close in moves || move == Close;
    if move.Emit? && !state.closed {
      assert next.delivered + next.pending == state.delivered + state.pending + [move.chunk];
    } else {
      assert next.delivered + next.pending == state.delivered + state.pending;
    }
  }

  /**
   * Over every interleaving: nothing is lost, reordered or delivered twice, nothing is taken once the
   * stream is closed, and the generator is never parked while a chunk waits or the stream is closed.
   */
  lemma {:induction false} RunsAreSound(moves: seq<Move>)
    requires IsRun(moves)
    ensures Sound(moves, After(moves))
    decreases |moves|
  {
    if moves != [] {
      var front := moves[..|moves| - 1];
      RunsAreSound(front);
      StepKeepsSound(front, After(front), moves[|moves| - 1]);
      assert front + [moves[|moves| - 1]] == moves;
    }
  }

  /** As long as the stream is open and nothing waits the generator can be parked; otherwise it can be moved. */
  lemma {:induction false} NeverStuck(moves: seq<Move>)
    requires IsRun(moves)
    ensures var state := After(moves);
      !CanMove(state, Ask) && !CanMove(state, GoOn) ==>
        (state.phase.Parked? && state.pending == [] && !state.closed)
        || (state.phase.Returned? && state.closed && state.delivered == Accepted(moves))
  {
    RunsAreSound(moves);
    assert After(moves).delivered + [] == After(moves).delivered;
  }

  /** The only move the generator can make next. */
  function Onward(state: State): Move {
    if state.phase.Woken? then GoOn else Ask
  }

  function DrainedTimes(state: State, times: nat): State
    decreases times
  {
    if times == 0 then state else DrainedTimes(Step(state, Onward(state)), times - 1)
  }

  /** Once closed, a consumer that keeps asking gets every chunk that was accepted and then the end. */
  lemma {:induction false} ClosedStreamsDrain(state: State)
    requires state.closed && !state.phase.Parked? && !state.phase.Returned?
    ensures var end := DrainedTimes(state, |state.pending| + 1);
      end.phase.Returned? && end.delivered == state.delivered + state.pending
    decreases |state.pending|
  {
    var next := Step(state, Onward(state));
    if state.pending == [] {
      assert DrainedTimes(next, 0) == next;
    } else {
      ClosedStreamsDrain(next);
      assert next.delivered + next.pending == state.delivered + state.pending;
    }
  }

  class ChunkStream {
    var pending: seq<Chunk>
    var closed: bool
    var wake: bool
    var phase: Phase
    ghost var delivered: seq<Chunk>

    ghost function Current(): State
      reads this
    {
      State(pending, closed, wake, phase, delivered)
    }

    constructor ()
      ensures Current() == START
    {
      pending, closed, wake, phase, delivered := [], false, false, Idle, [];
    }

    method Emit(chunk: Chunk)
      modifies this
      ensures Current() == Step(old(Current()), Move.Emit(chunk))
    {
      if closed {
        return;
      }
      pending := pending + [chunk];
      Release();
    }

    method Close()
      modifies this
      ensures Current() == Step(old(Current()), Move.Close)
    {
      closed := true;
      Release();
    }

    method Release()
      modifies this
      ensures Current() == Released(old(Current()))
    {
      var waiting := wake;
      wake := false;
      if waiting {
        phase := Woken;
      }
    }

    /** The generator from where it stands to where it next stops; a chunk is what it yields. */
    method Drain() returns (chunks: seq<Chunk>)
      modifies this
      ensures Current() == Drained(old(Current()))
      ensures delivered == old(delivered) + chunks && |chunks| <= 1 && (|chunks| == 1 <==> phase.Yielded?)
    {
      if |pending| > 0 {
        chunks := [pending[0]];
        pending := pending[1..];
        delivered := delivered + chunks;
        phase := Yielded;
        return;
      }
      chunks := [];
      if closed {
        phase := Returned;
        return;
      }
      wake, phase := true, Parked;
    }
  }
}
