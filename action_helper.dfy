/** The game-thread action buffer (AsyncActionHelper.cs). Worker threads post
    actions with `RunInGameThread`; the game thread's `Update` takes the whole
    pending batch and runs it in order. The lock and the threads are not
    modelled: each call is one sequential step, and what other threads post
    while a batch runs is a parameter of `Update`. */
module ActionHelper {

  /** How many actions of `batch` a drain runs: all of them, unless one
      throws; the throwing action is the last one started. */
  function RunLength<A>(batch: seq<A>, throws: A -> bool): (n: nat)
    ensures n <= |batch|
    ensures batch != [] ==> n > 0
    ensures forall i :: 0 <= i < n - 1 ==> !throws(batch[i])
    ensures n < |batch| ==> throws(batch[n - 1])
    decreases |batch|
  {
    if batch == [] then 0
    else if throws(batch[0]) then 1
    else 1 + RunLength(batch[1..], throws)
  }

  /** When no action of the batch throws, a drain runs the whole batch. */
  lemma {:induction false} QuietBatchRunsCompletely<A>(batch: seq<A>, throws: A -> bool)
    requires forall i :: 0 <= i < |batch| ==> !throws(batch[i])
    ensures RunLength(batch, throws) == |batch|
    decreases |batch|
  {
    if batch != [] {
      QuietBatchRunsCompletely(batch[1..], throws);
    }
  }

  /** A drain reaches every action that only quiet actions precede, and ends
      right after it when it throws. */
  lemma {:induction false} RunLengthReaches<A>(batch: seq<A>, throws: A -> bool, i: nat)
    requires i < |batch|
    requires forall j :: 0 <= j < i ==> !throws(batch[j])
    ensures i < RunLength(batch, throws)
    ensures throws(batch[i]) ==> RunLength(batch, throws) == i + 1
    decreases i
  {
    if i > 0 {
      assert !throws(batch[0]);
      assert forall j :: 0 <= j < i - 1 ==> batch[1..][j] == batch[j + 1];
      RunLengthReaches(batch[1..], throws, i - 1);
    }
  }

  /** A drain never runs past an action that throws. */
  lemma {:induction false} RunLengthStopsAt<A>(batch: seq<A>, throws: A -> bool, i: nat)
    requires i < |batch| && throws(batch[i])
    ensures RunLength(batch, throws) <= i + 1
    decreases i
  {
    if i > 0 && !throws(batch[0]) {
      assert batch[1..][i - 1] == batch[i];
      RunLengthStopsAt(batch[1..], throws, i - 1);
    }
  }

  /** Everything other threads posted while the first `n` actions ran. */
  function Arrived<A>(arrivals: nat -> seq<A>, n: nat): seq<A>
  {
    if n == 0 then [] else Arrived(arrivals, n - 1) + arrivals(n - 1)
  }

  class AsyncActionHelper<A> {
    /** `gameThreadActions`: actions waiting for the game thread. */
    var gameThreadActions: seq<A>
    /** `actionsAwaiting`. */
    var actionsAwaiting: bool
    /** The actions the game thread has run, in the order it ran them (an
        action that threw counts as run). */
    ghost var ran: seq<A>

    /** The flag is set exactly when actions are waiting. */
    ghost predicate Valid()
      reads this
    {
      actionsAwaiting <==> gameThreadActions != []
    }

    constructor ()
      ensures Valid()
      ensures gameThreadActions == [] && ran == []
    {
      gameThreadActions := [];
      actionsAwaiting := false;
      ran := [];
    }

    /** `RunInGameThread`: append the action and raise the flag. */
    method RunInGameThread(action: A)
      requires Valid()
      modifies this`gameThreadActions, this`actionsAwaiting
      ensures Valid()
      ensures gameThreadActions == old(gameThreadActions) + [action]
      ensures actionsAwaiting
    {
      gameThreadActions := gameThreadActions + [action];
      actionsAwaiting := true;
    }

    /** Several `RunInGameThread` calls in a row. */
    method RunAllInGameThread(actions: seq<A>)
      requires Valid()
      modifies this`gameThreadActions, this`actionsAwaiting
      ensures Valid()
      ensures gameThreadActions == old(gameThreadActions) + actions
    {
      for i := 0 to |actions|
        invariant Valid()
        invariant gameThreadActions == old(gameThreadActions) + actions[..i]
      {
        RunInGameThread(actions[i]);
        assert actions[..i + 1] == actions[..i] + [actions[i]];
      }
    }

    /** `Update`. With the flag down nothing happens. Otherwise the pending
        list is copied and cleared and the flag lowered; then the copied
        batch runs in order. `throws(a)` says whether running `a` throws,
        which ends `Update` and drops the rest of the batch; `arrivals(i)` is
        what other threads post while the `i`-th action of the batch runs.
        Those stay pending for the next `Update`. Returns whether an action
        threw. */
    method Update(throws: A -> bool, arrivals: nat -> seq<A>) returns (threw: bool)
      requires Valid()
      modifies this
      ensures Valid()
      ensures !old(actionsAwaiting) ==> unchanged(this) && !threw
      ensures old(actionsAwaiting) ==>
        var batch := old(gameThreadActions);
        var n := RunLength(batch, throws);
        && ran == old(ran) + batch[..n]
        && gameThreadActions == Arrived(arrivals, n)
        && threw == throws(batch[n - 1])
    {
      threw := false;
      if !actionsAwaiting {
        return;
      }
      var batch := gameThreadActions;
      gameThreadActions := [];
      actionsAwaiting := false;
      ghost var n := RunLength(batch, throws);
      var i := 0;
      while i < |batch|
        invariant 0 <= i <= n
        invariant Valid()
        invariant ran == old(ran) + batch[..i]
        invariant gameThreadActions == Arrived(arrivals, i)
        invariant !threw
        invariant forall j :: 0 <= j < i ==> !throws(batch[j])
      {
        RunLengthReaches(batch, throws, i);
        ran := ran + [batch[i]];
        RunAllInGameThread(arrivals(i));
        assert batch[..i + 1] == batch[..i] + [batch[i]];
        if throws(batch[i]) {
          threw := true;
          return;
        }
        i := i + 1;
      }
    }
  }
}
