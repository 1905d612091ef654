/**
 Time-out bookkeeping of tasks.c: a blocking call remembers the tick count
 and the overflow count, and repeated checks use up its block time.
 */
module TimeOuts {
  import opened KernelTypes

  datatype Stamp = Stamp(overflows: nat, entering: nat)

  // What the kernel shows at an absolute time; the overflow count is as wide as the tick count.
  function At(now: nat): Stamp {
    Stamp(now / M % M, now % M)
  }

  function Epoch(now: nat): nat {
    now / M
  }

  datatype Answer = Answer(timedOut: bool, stamp: Stamp, wait: nat)

  function Check(stamp: Stamp, wait: nat, now: Stamp): Answer {
    var elapsed := (now.entering - stamp.entering) % M;
    if wait == MAX_DELAY then Answer(false, stamp, wait)
    else if now.overflows != stamp.overflows && now.entering >= stamp.entering then Answer(true, stamp, 0)
    else if elapsed < wait then Answer(false, now, wait - elapsed)
    else Answer(true, stamp, 0)
  }

  // The blocking call's own record. Ghost: when it was last brought up to date, when the call began, and its block time.
  class TimeOut {
    var overflowCount: nat
    var timeOnEntering: nat
    ghost var entered: nat
    ghost var started: nat
    ghost var total: nat

    ghost function View(): Stamp
      reads this
    {
      Stamp(overflowCount, timeOnEntering)
    }

    // Time gone by plus time remaining is the block time of the call.
    ghost predicate Keeps(remaining: nat)
      reads this
    {
      View() == At(entered) && started <= entered && (entered - started) + remaining == total
    }

    constructor ()
      ensures View() == Stamp(0, 0) && Keeps(0)
    {
      overflowCount, timeOnEntering := 0, 0;
      entered, started, total := 0, 0, 0;
    }

    method SetInternal(tickCount: nat, numOfOverflows: nat, ghost now: nat)
      requires Stamp(numOfOverflows, tickCount) == At(now)
      modifies this`overflowCount, this`timeOnEntering, this`entered
      ensures View() == Stamp(numOfOverflows, tickCount) && entered == now
    {
      overflowCount := numOfOverflows;
      timeOnEntering := tickCount;
      entered := now;
    }

    // A blocking call begins, with a block time it means to keep to.
    method SetState(tickCount: nat, numOfOverflows: nat, ghost now: nat, ghost wait: nat)
      requires Stamp(numOfOverflows, tickCount) == At(now)
      modifies this
      ensures View() == Stamp(numOfOverflows, tickCount) && Keeps(wait) && started == now && total == wait
    {
      SetInternal(tickCount, numOfOverflows, now);
      started, total := now, wait;
    }

    // With at most one overflow since the last check, expiry is reported exactly when the block time is used up, and the
    // budget is kept otherwise.
    method CheckForTimeOut(ticksToWait: nat, tickCount: nat, numOfOverflows: nat, ghost now: nat)
      returns (timedOut: bool, remaining: nat)
      requires Stamp(numOfOverflows, tickCount) == At(now)
      modifies this`overflowCount, this`timeOnEntering, this`entered
      ensures Answer(timedOut, View(), remaining) == Check(old(View()), ticksToWait, At(now))
      ensures old(Keeps(ticksToWait)) && 0 < ticksToWait < MAX_DELAY
              && old(entered) <= now && Epoch(now) <= Epoch(old(entered)) + 1
              ==> timedOut == (now - started >= total) && (!timedOut ==> entered == now && Keeps(remaining))
    {
      if Keeps(ticksToWait) && 0 < ticksToWait < MAX_DELAY && entered <= now && Epoch(now) <= Epoch(entered) + 1 {
        CheckWithin(entered, now, ticksToWait);
      }
      var elapsed := (tickCount - timeOnEntering) % M;
      if ticksToWait == MAX_DELAY {
        timedOut, remaining := false, ticksToWait;
      } else if numOfOverflows != overflowCount && tickCount >= timeOnEntering {
        timedOut, remaining := true, 0;
      } else if elapsed < ticksToWait {
        remaining := ticksToWait - elapsed;
        SetInternal(tickCount, numOfOverflows, now);
        timedOut := false;
      } else {
        timedOut, remaining := true, 0;
      }
    }
  }

  // Differences of tick counts are elapsed times up to whole wraps.
  lemma ElapsedModulo(entered: nat, now: nat)
    requires entered <= now
    ensures (now % M - entered % M) % M == (now - entered) % M
  {
  }

  lemma ElapsedWithin(entered: nat, now: nat)
    requires entered <= now
    ensures Epoch(now) == Epoch(entered) ==> now - entered < M && now % M >= entered % M
    ensures Epoch(now) == Epoch(entered) + 1 ==> (now - entered >= M <==> now % M >= entered % M)
    ensures Epoch(now) > Epoch(entered) + 1 ==> now - entered >= M
    ensures now - entered < M ==> (now - entered) % M == now - entered
  {
  }

  // A finite wait is answered correctly, expired if and only if the true elapsed time has reached it, exactly when at
  // most one overflow lies in between, or more do but the remainders tell.
  lemma CheckExact(entered: nat, now: nat, wait: nat)
    requires entered <= now && wait < MAX_DELAY
    ensures var wraps := Epoch(now) - Epoch(entered);
            Check(At(entered), wait, At(now)).timedOut == (now - entered >= wait)
            <==> wraps <= 1 || (wraps % M != 0 && now % M >= entered % M) || (now - entered) % M >= wait
  {
    ElapsedModulo(entered, now);
    ElapsedWithin(entered, now);
    OverflowsDiffer(Epoch(entered), Epoch(now));
  }

  lemma OverflowsDiffer(a: nat, b: nat)
    requires a <= b
    ensures a % M == b % M <==> (b - a) % M == 0
  {
  }

  // Two overflows between checks can hide an expiry.
  lemma TwoOverflowsMissed()
    ensures var entered, now, wait := 10, 2 * M + 5, M - 2;
            !Check(At(entered), wait, At(now)).timedOut && now - entered >= wait
  {
  }

  // ---- Repeated checks of one block time ----

  ghost predicate Spaced(from: nat, checks: seq<nat>)
    decreases |checks|
  {
    checks != [] ==>
      && from <= checks[0] && Epoch(checks[0]) <= Epoch(from) + 1
      && Spaced(checks[0], checks[1..])
  }

  // The answers up to and including the first expiry.
  function Answers(stamp: Stamp, wait: nat, checks: seq<nat>): (r: seq<Answer>)
    ensures |r| <= |checks|
    decreases |checks|
  {
    if checks == [] then []
    else
      var a := Check(stamp, wait, At(checks[0]));
      if a.timedOut then [a] else [a] + Answers(a.stamp, a.wait, checks[1..])
  }

  lemma CheckWithin(entered: nat, now: nat, wait: nat)
    requires entered <= now && Epoch(now) <= Epoch(entered) + 1 && 0 < wait < MAX_DELAY
    ensures var a := Check(At(entered), wait, At(now));
            && a.timedOut == (now - entered >= wait)
            && (!a.timedOut ==> a.stamp == At(now) && a.wait == wait - (now - entered))
  {
    CheckExact(entered, now, wait);
    ElapsedModulo(entered, now);
    ElapsedWithin(entered, now);
  }

  // With at most one overflow between checks the time budget is conserved: until the true elapsed time reaches the
  // original wait, elapsed plus remaining is that wait; the first check from then on reports expiry, none before.
  lemma {:induction false} BudgetConserved(entered: nat, wait: nat, checks: seq<nat>)
    requires 0 < wait < MAX_DELAY && Spaced(entered, checks)
    ensures var answers := Answers(At(entered), wait, checks);
            && (forall i | 0 <= i < |answers| ::
                 && answers[i].timedOut == (checks[i] - entered >= wait)
                 && (!answers[i].timedOut ==> (checks[i] - entered) + answers[i].wait == wait))
            && (|answers| < |checks| ==> answers != [] && answers[|answers| - 1].timedOut)
    decreases |checks|
  {
    hide Check, At, Epoch;
    if checks != [] {
      var now := checks[0];
      CheckWithin(entered, now, wait);
      var a := Check(At(entered), wait, At(now));
      if !a.timedOut {
        BudgetConserved(now, a.wait, checks[1..]);
        var rest := Answers(a.stamp, a.wait, checks[1..]);
        assert Answers(At(entered), wait, checks) == [a] + rest;
        forall i | 0 <= i < |rest|
          ensures checks[i + 1] == checks[1..][i] && ([a] + rest)[i + 1] == rest[i]
        {
        }
      }
    }
  }

  // A wait of the greatest block time never expires.
  lemma {:induction false} NeverExpires(stamp: Stamp, checks: seq<nat>)
    ensures var answers := Answers(stamp, MAX_DELAY, checks);
            |answers| == |checks| && forall i | 0 <= i < |answers| :: !answers[i].timedOut && answers[i].wait == MAX_DELAY
    decreases |checks|
  {
    if checks != [] {
      NeverExpires(stamp, checks[1..]);
    }
  }
}
