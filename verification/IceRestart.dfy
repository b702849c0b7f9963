/**
 ICE restart of an SFU transport and of a P2P sender: recursive retries that share one `BackOff`.

 What the network, the API and the other side do is chosen freely at every step.
 */
module IceRestart {
  import opened Util

  /** The sum of the squares below `n`. */
  function SquareSum(n: nat): nat
  {
    if n == 0 then 0 else SquareSum(n - 1) + (n - 1) * (n - 1)
  }

  lemma {:induction false} SquareSumClosed(n: nat)
    ensures 6 * SquareSum(n) == if n == 0 then 0 else (n - 1) * n * (2 * n - 1)
  {
    if n > 1 {
      SquareSumClosed(n - 1);
      var m := n - 1;
      assert (m - 1) * m * (2 * m - 1) + 6 * (m * m) == m * n * (2 * n - 1);
    }
  }

  lemma {:induction false} SquareSumMonotone(m: nat, n: nat)
    requires m <= n
    ensures SquareSum(m) <= SquareSum(n)
  {
    if m < n {
      SquareSumMonotone(m, n - 1);
    }
  }

  /** The longest that the waits for the counts below `n` can take together. */
  ghost function Cost(n: nat, rate: real): real
  {
    if n == 0 then 0.0 else Cost(n - 1, rate) + ((n - 1) * (n - 1)) as real * rate
  }

  /** `n` times `c`, by addition. */
  ghost function Multiple(n: nat, c: real): real
  {
    if n == 0 then 0.0 else Multiple(n - 1, c) + c
  }

  function Resets(n: nat, times: nat): nat
  {
    if n == 0 then 0 else Resets(n - 1, times) + times
  }

  lemma {:induction false} ResetsIsProduct(n: nat, times: nat)
    ensures Resets(n, times) == n * times
  {
    if n > 0 {
      ResetsIsProduct(n - 1, times);
    }
  }

  lemma {:induction false} CostIsSquareSum(n: nat, rate: real)
    ensures Cost(n, rate) == SquareSum(n) as real * rate
  {
    if n > 0 {
      CostIsSquareSum(n - 1, rate);
    }
  }

  lemma {:induction false} CostMonotone(m: nat, n: nat, rate: real)
    requires m <= n && rate >= 0.0
    ensures Cost(m, rate) <= Cost(n, rate)
  {
    if m < n {
      CostMonotone(m, n - 1, rate);
      CostGrows(n - 1, rate);
    }
  }

  lemma CostGrows(n: nat, rate: real)
    requires rate >= 0.0
    ensures Cost(n, rate) <= Cost(n + 1, rate)
  {
    var square := (n * n) as real;
    NonNegative(square, rate);
  }

  lemma NonNegative(a: real, b: real)
    requires a >= 0.0 && b >= 0.0
    ensures a * b >= 0.0
  {
  }

  lemma {:induction false} MultipleIsProduct(n: nat, c: real)
    ensures Multiple(n, c) == n as real * c
  {
    if n > 0 {
      MultipleIsProduct(n - 1, c);
    }
  }

  /** The timeout for a count, with a random part below the jitter. */
  function Timeout(count: nat, interval: real, jitter: real, random: real): (timeout: real)
    requires jitter >= 0.0 && 0.0 <= random < 1.0
    ensures (count * count) as real * interval <= timeout <= (count * count) as real * (interval + jitter)
  {
    var square := (count * count) as real;
    var timeout := square * interval + square * jitter * random;
    assert timeout >= square * interval by {
      NonNegative(square, jitter);
      NonNegative(square * jitter, random);
    }
    assert timeout <= square * (interval + jitter) by {
      NonNegative(square, jitter);
      LessOf(square * jitter, random);
      assert square * (interval + jitter) == square * interval + square * jitter;
    }
    timeout
  }

  lemma LessOf(a: real, r: real)
    requires a >= 0.0 && 0.0 <= r <= 1.0
    ensures a * r <= a
  {
  }

  class BackOff {
    var count: nat
    const times: nat
    const interval: real
    const jitter: real
    ghost var waited: real  // history: the total of all timeouts

    ghost predicate Valid()
      reads this
    {
      count <= times && interval >= 0.0 && jitter >= 0.0
    }

    constructor (times: nat, interval: real, jitter: real)
      requires interval >= 0.0 && jitter >= 0.0
      ensures Valid() && count == 0 && waited == 0.0
      ensures this.times == times && this.interval == interval && this.jitter == jitter
    {
      count, waited := 0, 0.0;
      this.times, this.interval, this.jitter := times, interval, jitter;
    }

    method Wait() returns (waits: bool)
      requires Valid()
      modifies this
      ensures Valid() && waits == (old(count) < times)
      ensures count == old(count) + if waits then 1 else 0
      ensures waited - Cost(count, interval + jitter) <= old(waited) - Cost(old(count), interval + jitter)
      ensures waited - Cost(count, interval) >= old(waited) - Cost(old(count), interval)
    {
      if count >= times {
        return false;
      }
      var random: real := *;
      random := if 0.0 <= random < 1.0 then random else 0.0;
      var timeout := Timeout(count, interval, jitter, random);
      count := count + 1;
      waited := waited + timeout;
      return true;
    }

    method Reset()
      requires Valid()
      modifies this`count
      ensures Valid() && count == 0
    {
      count := 0;
    }
  }

  /** `_updateSkyWayAuthToken`, when no update succeeds: wait and try again until that is exceeded. */
  method UpdateUntilExceeded(backOff: BackOff)
    requires backOff.Valid()
    modifies backOff
    ensures backOff.Valid() && backOff.count == backOff.times
    ensures var (n, rate) := (backOff.times, backOff.interval + backOff.jitter);
            && backOff.waited - Cost(n, rate) <= old(backOff.waited - Cost(backOff.count, rate))
            && backOff.waited - Cost(n, backOff.interval) >= old(backOff.waited - Cost(backOff.count, backOff.interval))
    decreases backOff.times - backOff.count
  {
    if backOff.count >= backOff.times {
      return;
    }
    var waits := backOff.Wait();
    UpdateUntilExceeded(backOff);
  }

  /** Without jitter the waits take `interval` times the squares of the counts 0..times-1 in all. */
  method WaitInAll(times: nat, interval: real) returns (backOff: BackOff)
    requires interval >= 0.0
    ensures fresh(backOff) && backOff.count == times
    ensures backOff.waited == SquareSum(times) as real * interval
  {
    backOff := new BackOff(times, interval, 0.0);
    UpdateUntilExceeded(backOff);
    assert backOff.interval + backOff.jitter == interval;
    CostIsSquareSum(times, interval);
  }

  /** That is `interval` times (n-1)n(2n-1)/6 for n = `times`. */
  lemma TotalInClosedForm(n: nat, interval: real, waited: real)
    requires waited == SquareSum(n) as real * interval
    ensures 6.0 * waited == (if n == 0 then 0 else (n - 1) * n * (2 * n - 1)) as real * interval
  {
    SquareSumClosed(n);
    Scaled(SquareSum(n), if n == 0 then 0 else (n - 1) * n * (2 * n - 1), interval);
  }

  /** The sum over the counts 0..times is longer by `times * times * interval`. */
  lemma CommentedTotal(n: nat, interval: real, waited: real)
    requires waited == SquareSum(n) as real * interval
    ensures SquareSum(n + 1) as real * interval - waited == (n * n) as real * interval
  {
    OneMore(SquareSum(n), n * n, interval);
  }

  lemma Scaled(sum: int, product: int, interval: real)
    requires 6 * sum == product
    ensures 6.0 * (sum as real * interval) == product as real * interval
  {
    var x := sum as real;
    assert product as real == 6.0 * x;
    assert 6.0 * (x * interval) == (6.0 * x) * interval;
  }

  lemma OneMore(sum: int, square: int, interval: real)
    ensures (sum + square) as real * interval - sum as real * interval == square as real * interval
  {
    assert (sum + square) as real == sum as real + square as real;
  }

  /** With the defaults that is 14.0 s, where the sum over 0..times is 20.4 s. */
  method DefaultWaitInAll() returns (backOff: BackOff)
    ensures backOff.waited == 14000.0
    ensures SquareSum(9) as real * 100.0 == 20400.0
  {
    backOff := WaitInAll(8, 100.0);
    SquareSumClosed(8);
    SquareSumClosed(9);
  }

  datatype ConnectionState = New | Reconnecting | Connected | Disconnected

  /** How a promise settles, and the values that an awaited one can have. */
  datatype Settled = Resolved | Rejected
  datatype Awaited = Undefined | Connection | SkyWayError

  /** `.catch((e) => e as SkyWayError)` */
  function Caught(s: Settled): Awaited
  {
    if s.Rejected? then SkyWayError else Connection
  }

  /** `.then(() => {})` */
  function Emptied(value: Awaited): Awaited
  {
    Undefined
  }

  /** An error of the wait is caught and then replaced, so that it is never seen. */
  lemma ErrorIsNeverSeen(s: Settled)
    ensures Caught(s).SkyWayError? <==> s.Rejected?
    ensures !Emptied(Caught(s)).SkyWayError?
  {
  }

  /** What happens during one pass; there is a wait for the signaling service if it is not connected. */
  datatype Outcomes = Outcomes(updateFailed: bool, signaling: Option<Settled>, sendFailed: bool, timedOut: bool)

  datatype Exit = Ended | Restart(offered: bool)

  /** The fields that restarting reads and writes, in an `SfuTransport` or a `Sender`. */
  class Restarting {
    const backoffIceRestart: BackOff
    var connectionState: ConnectionState
    var peerLeft: bool
    ghost var passes: nat   // history: how often the guard of `restartIce` was passed
    var reports: nat        // environment: how often the transport will still be found connected

    ghost predicate Valid()
      reads this, backoffIceRestart
    {
      backoffIceRestart.Valid()
    }

    /** The guard passes that are left: what the count allows now, and after each reset. */
    ghost function Budget(): int
      reads this, backoffIceRestart
    {
      backoffIceRestart.times - backoffIceRestart.count + Resets(reports, backoffIceRestart.times)
    }

    /** The time waited, measured against what the count and the resets to come account for. */
    ghost function Overtime(): real
      reads this, backoffIceRestart
    {
      var rate := backoffIceRestart.interval + backoffIceRestart.jitter;
      backoffIceRestart.waited - Cost(backoffIceRestart.count, rate)
      + Multiple(reports, Cost(backoffIceRestart.times, rate))
    }

    constructor (reports: nat, interval: real, jitter: real)
      requires interval >= 0.0 && jitter >= 0.0
      ensures Valid() && fresh(backoffIceRestart)
      ensures backoffIceRestart.count == 0 && backoffIceRestart.times == 8 && backoffIceRestart.waited == 0.0
      ensures backoffIceRestart.interval == interval && backoffIceRestart.jitter == jitter
      ensures passes == 0 && this.reports == reports && !peerLeft
    {
      backoffIceRestart := new BackOff(8, interval, jitter);
      connectionState, peerLeft, passes := New, false, 0;
      this.reports := reports;
    }

    /** `checkNeedEnd`, after a moment in which the other side may have left or the transport connected. */
    method CheckNeedEnd() returns (end: bool)
      requires Valid()
      modifies this, backoffIceRestart
      ensures Valid() && passes == old(passes) && reports <= old(reports) && (old(peerLeft) ==> peerLeft)
      ensures passes + Budget() <= old(passes + Budget())
      ensures Overtime() <= old(Overtime())
      ensures reports == old(reports) ==>
                && backoffIceRestart.count == old(backoffIceRestart.count)
                && (end ==> peerLeft && connectionState == Disconnected)
                && (!end ==> connectionState == old(connectionState))
      ensures reports < old(reports) ==> end && connectionState == Connected && backoffIceRestart.count == 0
    {
      var leaves: bool := *;
      peerLeft := peerLeft || leaves;
      if peerLeft {
        connectionState := Disconnected;
        return true;
      }
      var connected: bool := *;
      if connected && reports > 0 {
        CostMonotone(backoffIceRestart.count, backoffIceRestart.times,
                     backoffIceRestart.interval + backoffIceRestart.jitter);
        backoffIceRestart.Reset();
        reports := reports - 1;
        connectionState := Connected;
        return true;
      }
      return false;
    }

    /** The guard is passed, and the wait for the current count is over. */
    method Attempt()
      requires Valid() && backoffIceRestart.count < backoffIceRestart.times
      modifies this, backoffIceRestart
      ensures Valid() && reports == old(reports) && peerLeft == old(peerLeft)
      ensures backoffIceRestart.count == old(backoffIceRestart.count) + 1
      ensures passes + Budget() == old(passes + Budget())
      ensures Overtime() <= old(Overtime())
      ensures passes == old(passes) + 1 && connectionState == Reconnecting
    {
      passes := passes + 1;
      connectionState := Reconnecting;
      var waits := backoffIceRestart.Wait();
    }

    /**
     `SfuTransport.restartIce`: it ends; all nested calls together pass the guard no more often than the budget
     allows and wait no longer than the counts account for; and unless the transport is found
     connected the final state is disconnected, with the budget used up if the other side has not left.
     */
    method SfuRestartIce()
      requires Valid()
      modifies this, backoffIceRestart
      ensures Valid() && reports <= old(reports)
      ensures passes + Budget() <= old(passes + Budget())
      ensures Overtime() <= old(Overtime())
      ensures reports == old(reports) ==>
                && connectionState == Disconnected
                && backoffIceRestart.count >= old(backoffIceRestart.count)
                && passes - backoffIceRestart.count == old(passes - backoffIceRestart.count)
                && (!peerLeft ==> backoffIceRestart.count == backoffIceRestart.times)
      ensures connectionState == Disconnected
              || (connectionState == Connected && reports < old(reports) && backoffIceRestart.count == 0)
      decreases reports, backoffIceRestart.times - backoffIceRestart.count, 1
    {
      if backoffIceRestart.count >= backoffIceRestart.times {
        connectionState := Disconnected;
        return;
      }
      Attempt();
      var end := CheckNeedEnd();
      if end {
        return;
      }
      var updateFailed: bool := *;
      if updateFailed {
        SfuRestartIce();
        return;
      }
      end := CheckNeedEnd();
      if end {
        return;
      }
      var failed := MediasoupRestartIce();
      var timedOut: bool := *;
      if !timedOut {
        end := CheckNeedEnd();
        if end {
          return;
        }
      }
      SfuRestartIce();
    }

    /** `_mediasoupRestartIce`: when the API fails it restarts from within the restart. */
    method MediasoupRestartIce() returns (failed: bool)
      requires Valid()
      modifies this, backoffIceRestart
      ensures Valid() && reports <= old(reports)
      ensures passes + Budget() <= old(passes + Budget())
      ensures Overtime() <= old(Overtime())
      ensures reports == old(reports) ==>
                && backoffIceRestart.count >= old(backoffIceRestart.count)
                && passes - backoffIceRestart.count == old(passes - backoffIceRestart.count)
      ensures failed && reports == old(reports) ==>
                && connectionState == Disconnected
                && (!peerLeft ==> backoffIceRestart.count == backoffIceRestart.times)
      ensures !failed ==> unchanged(this) && unchanged(backoffIceRestart)
      decreases reports, backoffIceRestart.times - backoffIceRestart.count, 2
    {
      failed := *;
      if failed {
        SfuRestartIce();
      }
    }

    /**
     One pass of `Sender.restartIce`, from the guard to the next restart.  Unless something ends
     it, a pass whose ICE parameters could be updated makes an offer, and that whatever became of
     its wait for the signaling service: no outcome of it leads to the restart written for an error.
     */
    method SenderPass(o: Outcomes) returns (exit: Exit)
      requires Valid() && backoffIceRestart.count < backoffIceRestart.times
      modifies this, backoffIceRestart
      ensures Valid() && reports <= old(reports)
      ensures passes == old(passes) + 1
      ensures passes + Budget() <= old(passes + Budget())
      ensures Overtime() <= old(Overtime())
      ensures exit.Restart? ==> exit.offered == !o.updateFailed
      ensures exit.Restart? ==> reports == old(reports)
      ensures reports == old(reports) ==>
                && backoffIceRestart.count == old(backoffIceRestart.count) + 1
                && (!peerLeft ==> exit.Restart?)
                && (exit.Ended? ==> peerLeft && connectionState == Disconnected)
      ensures reports < old(reports) ==> connectionState == Connected && backoffIceRestart.count == 0
    {
      Attempt();
      var end := CheckNeedEnd();
      if end {
        return Ended;
      }
      if o.updateFailed {
        return Restart(false);
      }
      end := CheckNeedEnd();
      if end {
        return Ended;
      }
      if o.signaling.Some? {
        var e := Emptied(Caught(o.signaling.value));
        if e.SkyWayError? {
          exit := Restart(false);
          return;
        }
        end := CheckNeedEnd();
        if end {
          return Ended;
        }
      }
      if o.sendFailed {
        return Restart(true);
      }
      if !o.timedOut {
        end := CheckNeedEnd();
        if end {
          return Ended;
        }
      }
      exit := Restart(true);
    }

    /** `Sender.restartIce`, with the same outcome as that of the transport. */
    method SenderRestartIce()
      requires Valid()
      modifies this, backoffIceRestart
      ensures Valid() && reports <= old(reports)
      ensures passes + Budget() <= old(passes + Budget())
      ensures Overtime() <= old(Overtime())
      ensures reports == old(reports) ==>
                && connectionState == Disconnected
                && backoffIceRestart.count >= old(backoffIceRestart.count)
                && passes - backoffIceRestart.count == old(passes - backoffIceRestart.count)
                && (!peerLeft ==> backoffIceRestart.count == backoffIceRestart.times)
      ensures reports < old(reports) ==> connectionState == Connected && backoffIceRestart.count == 0
      decreases reports, backoffIceRestart.times - backoffIceRestart.count
    {
      if backoffIceRestart.count >= backoffIceRestart.times {
        connectionState := Disconnected;
        return;
      }
      var o: Outcomes := *;
      var exit := SenderPass(o);
      if exit.Restart? {
        SenderRestartIce();
      }
    }
  }

  /**
   While the connection is never found connected, a restart of a new one passes the guard at most 8
   times, exactly 8 times unless the other side leaves, and waits at most (interval + jitter) * 140
   in all, 140 being the sum of the squares below 8; every time it is found connected allows as much
   again.
   */
  method RestartOnce(sfu: bool, reports: nat, interval: real, jitter: real) returns (transport: Restarting)
    requires interval >= 0.0 && jitter >= 0.0
    ensures fresh(transport)
    ensures transport.passes <= 8 * (reports + 1)
    ensures transport.backoffIceRestart.waited <= (reports + 1) as real * (140.0 * (interval + jitter))
    ensures reports == 0 ==> transport.connectionState == Disconnected
    ensures reports == 0 && !transport.peerLeft ==> transport.backoffIceRestart.count == transport.passes == 8
  {
    transport := RestartNew(sfu, reports, interval, jitter);
    var backOff := transport.backoffIceRestart;
    AtMostTheBudget(transport.passes, reports, transport.reports, backOff.count, backOff.times);
    EightCosts(reports + 1, backOff.times, interval + jitter, backOff.waited);
  }

  method RestartNew(sfu: bool, reports: nat, interval: real, jitter: real) returns (transport: Restarting)
    requires interval >= 0.0 && jitter >= 0.0
    ensures fresh(transport) && transport.Valid() && transport.backoffIceRestart.times == 8
    ensures transport.passes + transport.Budget() <= 8 + Resets(reports, 8)
    ensures transport.backoffIceRestart.waited
            <= Multiple(reports + 1, Cost(transport.backoffIceRestart.times, interval + jitter))
    ensures reports == 0 ==> transport.connectionState == Disconnected
    ensures reports == 0 && !transport.peerLeft ==> transport.backoffIceRestart.count == transport.passes == 8
  {
    transport := new Restarting(reports, interval, jitter);
    if sfu {
      transport.SfuRestartIce();
    } else {
      transport.SenderRestartIce();
    }
    var backOff := transport.backoffIceRestart;
    WithinBounds(reports, transport.reports, backOff.count, backOff.times, interval + jitter, backOff.waited);
  }

  lemma AtMostTheBudget(passes: nat, reports: nat, left: nat, count: nat, times: nat)
    requires count <= times == 8
    requires passes + times - count + Resets(left, times) <= times + Resets(reports, times)
    ensures passes <= 8 * (reports + 1)
  {
    ResetsIsProduct(left, times);
    ResetsIsProduct(reports, times);
  }

  lemma CostBounds(m: nat, n: nat, rate: real)
    requires m <= n && rate >= 0.0
    ensures 0.0 <= Cost(m, rate) <= Cost(n, rate)
  {
    CostMonotone(0, m, rate);
    CostMonotone(m, n, rate);
  }

  lemma WithinBounds(reports: nat, left: nat, count: nat, times: nat, rate: real, waited: real)
    requires count <= times && rate >= 0.0
    requires waited - Cost(count, rate) + Multiple(left, Cost(times, rate)) <= Multiple(reports, Cost(times, rate))
    ensures waited <= Multiple(reports + 1, Cost(times, rate))
  {
    CostBounds(count, times, rate);
    MultipleNonNegative(left, Cost(times, rate));
  }

  lemma EightCosts(n: nat, times: nat, rate: real, waited: real)
    requires times == 8 && waited <= Multiple(n, Cost(times, rate))
    ensures waited <= n as real * (140.0 * rate)
  {
    SquareSumClosed(times);
    CostIsSquareSum(times, rate);
    assert SquareSum(times) as real == 140.0;
    MultipleIsProduct(n, Cost(times, rate));
  }

  lemma MultipleNonNegative(n: nat, c: real)
    requires c >= 0.0
    ensures Multiple(n, c) >= 0.0
  {
  }
}
