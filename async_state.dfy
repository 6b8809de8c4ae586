/**
 * The completion state machine of an asynchronous trace, as values: the state
 * held in the AtomicInteger, the timeout task (if one was set) and the cancel
 * calls made on it. `fire` and `timeout` are each one compare-and-set, so any
 * interleaving of them by any number of threads is a sequence of Steps; the
 * lemmas below hold for every such sequence.
 */
module AsyncState {
  import opened Wrappers

  /** AsyncTrace.STATE_INIT, STATE_FIRE, STATE_TIMEOUT. */
  const STATE_INIT: int := 0
  const STATE_FIRE: int := 1
  const STATE_TIMEOUT: int := 2

  predicate IsTerminal(s: int) {
    s == STATE_FIRE || s == STATE_TIMEOUT
  }

  /** Identity of a scheduled TimerTask. */
  type TaskId = nat

  datatype Guard = Guard(state: int, timeoutTask: Option<TaskId>, cancelCalls: seq<TaskId>)

  datatype Call = FireCall | TimeoutCall

  /** AtomicInteger.compareAndSet: (whether it swapped, the new value). */
  function CompareAndSet(current: int, expected: int, update: int): (bool, int) {
    if current == expected then (true, update) else (false, current)
  }

  /**
   * One call. `fire` swaps INIT for FIRE and, when it wins, cancels the timeout
   * task if there is one; `timeout` swaps INIT for TIMEOUT. The flag says
   * whether the call won its compare-and-set.
   */
  function Step(g: Guard, c: Call): (Guard, bool) {
    match c
    case FireCall =>
      var (won, s) := CompareAndSet(g.state, STATE_INIT, STATE_FIRE);
      var cancels := if won && g.timeoutTask.Some? then [g.timeoutTask.value] else [];
      (g.(state := s, cancelCalls := g.cancelCalls + cancels), won)
    case TimeoutCall =>
      var (won, s) := CompareAndSet(g.state, STATE_INIT, STATE_TIMEOUT);
      (g.(state := s), won)
  }

  /** The guard after a sequence of calls. */
  function Run(g: Guard, calls: seq<Call>): Guard
    decreases |calls|
  {
    if calls == [] then g else Run(Step(g, calls[0]).0, calls[1..])
  }

  /** How many calls of kind `c` in the sequence won their compare-and-set. */
  function Wins(g: Guard, calls: seq<Call>, c: Call): nat
    decreases |calls|
  {
    if calls == [] then 0
    else
      var (next, won) := Step(g, calls[0]);
      (if won && calls[0] == c then 1 else 0) + Wins(next, calls[1..], c)
  }

  /**
   * Once the state is terminal every later call loses and changes nothing:
   * a late fire returns false, a late timeout is a no-op, and no task is
   * cancelled.
   */
  lemma {:induction false} TerminalIsFinal(g: Guard, calls: seq<Call>)
    requires IsTerminal(g.state)
    ensures Run(g, calls) == g
    ensures Wins(g, calls, FireCall) == 0 && Wins(g, calls, TimeoutCall) == 0
    decreases |calls|
  {
    if calls != [] {
      assert g.cancelCalls + [] == g.cancelCalls;
      assert Step(g, calls[0]) == (g, false);
      TerminalIsFinal(g, calls[1..]);
    }
  }

  /**
   * Mutual exclusion: from INIT, at most one call of the whole sequence wins,
   * and exactly one does as soon as any call is made. The final state names
   * the winner: FIRE iff a fire won, TIMEOUT iff a timeout won, INIT iff no
   * call was made.
   */
  lemma {:induction false} ExactlyOneWinner(g: Guard, calls: seq<Call>)
    requires g.state == STATE_INIT
    ensures Wins(g, calls, FireCall) + Wins(g, calls, TimeoutCall) == (if calls == [] then 0 else 1)
    ensures Run(g, calls).state == STATE_FIRE <==> Wins(g, calls, FireCall) == 1
    ensures Run(g, calls).state == STATE_TIMEOUT <==> Wins(g, calls, TimeoutCall) == 1
    ensures Run(g, calls).state == STATE_INIT <==> calls == []
  {
    if calls != [] {
      var next := Step(g, calls[0]).0;
      assert IsTerminal(next.state);
      TerminalIsFinal(next, calls[1..]);
    }
  }

  /**
   * From INIT, the timeout task is cancelled at most once over any sequence of
   * calls, and only when a fire won and a task was set; a timeout winning, or
   * a fire that lost, cancels nothing.
   */
  lemma {:induction false} CancelOnlyOnWinningFire(g: Guard, calls: seq<Call>)
    requires g.state == STATE_INIT
    ensures Run(g, calls).timeoutTask == g.timeoutTask
    ensures Run(g, calls).cancelCalls ==
      g.cancelCalls + (if Wins(g, calls, FireCall) == 1 && g.timeoutTask.Some? then [g.timeoutTask.value] else [])
  {
    ExactlyOneWinner(g, calls);
    if calls != [] {
      var next := Step(g, calls[0]).0;
      TerminalIsFinal(next, calls[1..]);
    }
  }
}
