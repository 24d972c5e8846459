/**
 * The bodies of the two background loops, run sequentially. Sleeping and the
 * threads themselves are abstracted away: the refresher is given the value of
 * the shared "scan finished" flag that each of its iterations loads, and the
 * poller is given the number of iterations it has time to run.
 */
module Workers {
  import opened Wrappers
  import opened QrCode

  /** The index of the first set flag, or |flags| when none is set. */
  function FirstSet(flags: seq<bool>): (n: nat)
    ensures n <= |flags|
    ensures forall k :: 0 <= k < n ==> !flags[k]
    ensures n < |flags| ==> flags[n]
  {
    if flags == [] || flags[0] then 0 else 1 + FirstSet(flags[1..])
  }

  /**
   * What the refresher sends when its iterations load `flags`: one new image
   * per iteration, for counters 1, 2, 3, ..., up to the first iteration that
   * finds the flag set.
   */
  function RefreshEvents(flags: seq<bool>): (r: seq<Message>)
  {
    seq(FirstSet(flags), j => UpdatetQRCodeImage(NewQrCodePath(j + 1)))
  }

  /**
   * The refresher loop. Iteration k + 1 increments the counter, loads
   * flags[k], stops if it is set and otherwise sends the image path for the
   * counter. It returns what was sent, the final counter and whether it
   * stopped on the flag (rather than running out of observed iterations).
   */
  method RefreshQrCode(flags: seq<bool>) returns (events: seq<Message>, counter: int, stopped: bool)
    ensures events == RefreshEvents(flags)
    ensures stopped <==> exists k :: 0 <= k < |flags| && flags[k]
    ensures counter == if stopped then |events| + 1 else |flags|
  {
    events, counter, stopped := [], 0, false;
    var k := 0;
    while k < |flags|
      invariant 0 <= k <= |flags|
      invariant counter == k && !stopped
      invariant forall j :: 0 <= j < k ==> !flags[j]
      invariant events == seq(k, j => UpdatetQRCodeImage(NewQrCodePath(j + 1)))
    {
      counter := counter + 1;
      if flags[k] {
        stopped := true;
        break;
      }
      events := events + [UpdatetQRCodeImage(NewQrCodePath(counter))];
      k := k + 1;
    }
  }

  /**
   * What the poller sends in iterations count + 1 .. bound: ScanCodeFinished
   * at the first iteration whose scan check is positive, and nothing after it.
   */
  function PollFrom(count: int, bound: nat): (r: seq<Message>)
    decreases bound - count
  {
    if count >= bound then []
    else if UserScanCodeResult(count + 1) then [ScanCodeFinished]
    else PollFrom(count + 1, bound)
  }

  /** What the poller sends when it has time for `bound` iterations. */
  function PollEvents(bound: nat): (r: seq<Message>)
  {
    PollFrom(0, bound)
  }

  /**
   * The poller sends nothing in its first three iterations and exactly one
   * ScanCodeFinished, on the fourth.
   */
  lemma PollEventsClosedForm(bound: nat)
    ensures PollEvents(bound) == if bound < 4 then [] else [ScanCodeFinished]
  {
    assert bound >= 4 ==> PollFrom(3, bound) == [ScanCodeFinished];
    assert PollFrom(0, bound) == PollFrom(1, bound) == PollFrom(2, bound) == PollFrom(3, bound);
  }

  /**
   * The poller loop, run for at most `bound` iterations. Iteration c
   * increments the count to c and asks UserScanCodeResult(c); the first
   * positive answer is sent as ScanCodeFinished and ends the loop.
   */
  method PollScanResult(bound: nat) returns (events: seq<Message>, count: int)
    ensures events == PollEvents(bound)
    ensures count == if bound < 4 then bound else 4
    ensures events == if bound < 4 then [] else [ScanCodeFinished]
  {
    events, count := [], 0;
    while count < bound
      invariant 0 <= count <= 3 && count <= bound
      invariant events == []
      invariant PollFrom(count, bound) == PollEvents(bound)
      decreases bound - count
    {
      count := count + 1;
      if UserScanCodeResult(count) {
        events := events + [ScanCodeFinished];
        break;
      }
    }
  }

  /** Flags appended after the first set one do not move it. */
  lemma {:induction false} FirstSetAppend(flags: seq<bool>, rest: seq<bool>)
    requires FirstSet(flags) < |flags|
    ensures FirstSet(flags + rest) == FirstSet(flags)
  {
    if !flags[0] {
      assert (flags + rest)[1..] == flags[1..] + rest;
      FirstSetAppend(flags[1..], rest);
    }
  }

  /**
   * Every refresher message is a new image whose path carries the counter
   * j + 1: the counters start at 1 and each is one greater than the last.
   */
  lemma RefreshCountersIncrease(flags: seq<bool>)
    ensures forall j :: 0 <= j < |RefreshEvents(flags)| ==>
      RefreshEvents(flags)[j].UpdatetQRCodeImage?
      && QrCodeCounter(RefreshEvents(flags)[j].path) == Some(j + 1)
  {
    forall j | 0 <= j < |RefreshEvents(flags)|
      ensures QrCodeCounter(RefreshEvents(flags)[j].path) == Some(j + 1)
    {
      QrCodeCounterOfPath(j + 1);
    }
  }

  /**
   * Once an iteration finds the flag set, that iteration and every later one
   * send nothing: the messages depend only on the flags up to that point.
   */
  lemma RefreshStopsAtFlag(flags: seq<bool>, k: nat, rest: seq<bool>)
    requires k < |flags| && flags[k]
    ensures |RefreshEvents(flags)| <= k
    ensures RefreshEvents(flags + rest) == RefreshEvents(flags)
  {
    FirstSetAppend(flags, rest);
  }

  /** The refresher sends one message per iteration exactly when no iteration sees the flag. */
  lemma RefreshRunsWhileClear(flags: seq<bool>)
    ensures |RefreshEvents(flags)| == |flags| <==> forall k :: 0 <= k < |flags| ==> !flags[k]
  {
  }
}
