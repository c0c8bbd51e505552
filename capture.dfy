/**
 * The throw-until-terminal capture loop shared by both scripts, as a
 * specification: how many balls a loop throws and whether it captures,
 * given the server's answer to each throw. Status 1 is a capture, 0 and 3
 * stop the loop, any other status throws again. The scripts differ only on
 * an answer without a status: the bot throws again, random-walk stops.
 */
module Capture {
  import opened Util
  import opened Protocol

  /** What a capture loop does with an answer that carries no `status`. */
  datatype MissingStatus = ThrowAgain | StopThrowing

  /** The decision taken after one throw. */
  datatype Step = Captured | Stopped | Again

  function Verdict(onMissing: MissingStatus, status: Option<int>): Step {
    match status
    case None => if onMissing == ThrowAgain then Again else Stopped
    case Some(code) =>
      if code == 1 then Captured
      else if code == 0 || code == 3 then Stopped
      else Again
  }

  /**
   * The number of throws a capture loop makes starting at throw number `k`
   * with `available` balls left, when throw number j is answered by
   * `reply(j)`. The loop checks for a ball before every throw.
   */
  function ThrowsFrom(m: MissingStatus, available: nat, reply: nat -> CatchReply, k: nat): (n: nat)
    ensures n <= available
    ensures available > 0 ==> n > 0
    decreases available
  {
    if available == 0 then 0
    else if Verdict(m, reply(k).status) == Again then 1 + ThrowsFrom(m, available - 1, reply, k + 1)
    else 1
  }

  /** Whether the run starting at throw `k` ends with a capture. */
  predicate CaughtFrom(m: MissingStatus, available: nat, reply: nat -> CatchReply, k: nat) {
    var n := ThrowsFrom(m, available, reply, k);
    n > 0 && reply(k + n - 1).status == Some(1)
  }

  /**
   * Every throw of a run but the last was answered "throw again"; the last
   * answer is terminal unless the balls ran out.
   */
  lemma {:induction false} RunShape(m: MissingStatus, available: nat, reply: nat -> CatchReply, k: nat)
    ensures var n := ThrowsFrom(m, available, reply, k);
      && (forall j :: k <= j < k + n - 1 ==> Verdict(m, reply(j).status) == Again)
      && (n < available ==> Verdict(m, reply(k + n - 1).status) != Again)
      && (n > 0 && Verdict(m, reply(k + n - 1).status) == Again ==> n == available)
  {
    if available > 0 && Verdict(m, reply(k).status) == Again {
      RunShape(m, available - 1, reply, k + 1);
    }
  }

  /**
   * The run stops at the first terminal answer: if throw j is the first
   * answer that is not "throw again" and a ball is left for it, exactly
   * j - k + 1 balls are thrown.
   */
  lemma {:induction false} StopsAtFirstTerminal(m: MissingStatus, available: nat, reply: nat -> CatchReply, k: nat, j: nat)
    requires k <= j < k + available
    requires Verdict(m, reply(j).status) != Again
    requires forall i :: k <= i < j ==> Verdict(m, reply(i).status) == Again
    ensures ThrowsFrom(m, available, reply, k) == j - k + 1
    decreases available
  {
    if j > k {
      StopsAtFirstTerminal(m, available - 1, reply, k + 1, j);
    }
  }

  /**
   * The encounter is captured if and only if some throw reached by the loop
   * (every earlier answer was "throw again", and a ball was left) is
   * answered with status 1.
   */
  lemma CaughtIffStatusOne(m: MissingStatus, available: nat, reply: nat -> CatchReply, k: nat)
    ensures CaughtFrom(m, available, reply, k) <==>
      exists j :: k <= j < k + available && reply(j).status == Some(1) &&
        forall i :: k <= i < j ==> Verdict(m, reply(i).status) == Again
  {
    var n := ThrowsFrom(m, available, reply, k);
    RunShape(m, available, reply, k);
    if CaughtFrom(m, available, reply, k) {
      var j := k + n - 1;
      assert reply(j).status == Some(1);
    }
    if exists j :: k <= j < k + available && reply(j).status == Some(1) &&
        forall i :: k <= i < j ==> Verdict(m, reply(i).status) == Again {
      var j :| k <= j < k + available && reply(j).status == Some(1) &&
        forall i :: k <= i < j ==> Verdict(m, reply(i).status) == Again;
      StopsAtFirstTerminal(m, available, reply, k, j);
    }
  }

  /**
   * Throwing again on a missing status never throws fewer balls than
   * stopping on it, and both policies throw the same balls when every
   * answer carries a status.
   */
  lemma {:induction false} RetryingThrowsAtLeastAsMany(available: nat, reply: nat -> CatchReply, k: nat)
    ensures ThrowsFrom(StopThrowing, available, reply, k) <= ThrowsFrom(ThrowAgain, available, reply, k)
    ensures (forall j :: k <= j < k + available ==> reply(j).status.Some?) ==>
      ThrowsFrom(StopThrowing, available, reply, k) == ThrowsFrom(ThrowAgain, available, reply, k)
    decreases available
  {
    if available > 0 {
      RetryingThrowsAtLeastAsMany(available - 1, reply, k + 1);
    }
  }
}
