/**
 * The fault latch table (Fault::Handler).
 *
 * A fault code is an index into a table of booleans. Codes below
 * FatalEndSentinel are fatal, codes from FatalEndSentinel up to AllOk are
 * recoverable (both sentinels included). Setting a code latches it; unlatch
 * events may clear recoverable codes only.
 */
module FaultHandling {

  // Fault::Type, in declaration order.
  const Zero: nat := 0
  const AccelInit: nat := 1
  const FramInit: nat := 2
  const FatalEndSentinel: nat := 3
  const AccelNotReady: nat := 4
  const AccelImplausibleReading: nat := 5
  const AccelParityFailure: nat := 6
  const RetryableEndSentinel: nat := 7
  /** One past the last code: the size of the table. */
  const AllOk: nat := 8

  /** The number of recoverable codes an unlatch event's mapping covers. */
  const EventSpan: nat := RetryableEndSentinel - FatalEndSentinel

  // ---------------------------------------------------------------------------
  // The table as a value

  /** Some code in [start, end) is latched. */
  predicate Latched(f: seq<bool>, start: nat, end: nat)
  {
    exists i :: start <= i < end && i < |f| && f[i]
  }

  /** Splitting a range at any midpoint: a fault lies in one of the two halves. */
  lemma {:induction false} LatchedSplit(f: seq<bool>, start: nat, mid: nat, end: nat)
    requires start <= mid <= end
    ensures Latched(f, start, end) <==> Latched(f, start, mid) || Latched(f, mid, end)
  {
    if Latched(f, start, end) {
      var i :| start <= i < end && i < |f| && f[i];
      if i < mid {
        assert Latched(f, start, mid);
      } else {
        assert Latched(f, mid, end);
      }
    }
  }

  /** The fatal and the recoverable ranges partition the table. */
  lemma FaultRangesPartition(f: seq<bool>)
    ensures Latched(f, Zero, AllOk) <==> Latched(f, Zero, FatalEndSentinel) || Latched(f, FatalEndSentinel, AllOk)
  {
    LatchedSplit(f, Zero, FatalEndSentinel, AllOk);
  }

  /** The number of latched codes. */
  function Count(f: seq<bool>): (n: nat)
    ensures n <= |f|
  {
    if |f| == 0 then 0 else Count(f[..|f| - 1]) + (if f[|f| - 1] then 1 else 0)
  }

  /** No code is latched exactly when the count is zero. */
  lemma {:induction false} CountZero(f: seq<bool>)
    ensures Count(f) == 0 <==> !Latched(f, 0, |f|)
  {
    if |f| > 0 {
      var g := f[..|f| - 1];
      CountZero(g);
      if Latched(g, 0, |g|) {
        var i :| 0 <= i < |g| && g[i];
        assert f[i];
      }
      if Latched(f, 0, |f|) && !f[|f| - 1] {
        var i :| 0 <= i < |f| && f[i];
        assert g[i];
      }
    }
  }

  /** The least latched code at or after `start`, or -1. */
  function FirstLatched(f: seq<bool>, start: nat): (r: int)
    decreases |f| - start
    ensures r == -1 <==> !Latched(f, start, |f|)
    ensures r != -1 ==> start <= r < |f| && f[r] && forall j :: start <= j < r ==> !f[j]
  {
    if start >= |f| then -1
    else if f[start] then start
    else FirstLatched(f, start + 1)
  }

  /**
   * The table after an unlatch event whose mapping is `m`: recoverable code
   * FatalEndSentinel + 1 + i is cleared iff `m[i]` is set.
   */
  function AfterEvent(f: seq<bool>, m: seq<bool>): (r: seq<bool>)
    requires |m| >= EventSpan
    ensures |r| == |f|
  {
    seq(|f|, i requires 0 <= i < |f| =>
      if FatalEndSentinel < i <= RetryableEndSentinel && m[i - FatalEndSentinel - 1] then false else f[i])
  }

  /** No event can clear a fatal code (or the fatal sentinel), nor anything past the recoverable range. */
  lemma AfterEventKeepsFatal(f: seq<bool>, m: seq<bool>, i: nat)
    requires |m| >= EventSpan && i < |f|
    requires i <= FatalEndSentinel || RetryableEndSentinel < i
    ensures AfterEvent(f, m)[i] == f[i]
  {
  }

  /** A covered code stays latched iff it was latched and its mapping entry is clear. */
  lemma AfterEventRecoverable(f: seq<bool>, m: seq<bool>, i: nat)
    requires |m| >= EventSpan && FatalEndSentinel < i <= RetryableEndSentinel && i < |f|
    ensures AfterEvent(f, m)[i] <==> f[i] && !m[i - FatalEndSentinel - 1]
  {
  }

  /** Events only clear: a table with no fault stays so, and a latched fatal fault survives. */
  lemma AfterEventOnlyClears(f: seq<bool>, m: seq<bool>)
    requires |m| >= EventSpan
    ensures Latched(AfterEvent(f, m), 0, |f|) ==> Latched(f, 0, |f|)
    ensures Latched(f, Zero, FatalEndSentinel) ==> Latched(AfterEvent(f, m), Zero, FatalEndSentinel)
  {
    var r := AfterEvent(f, m);
    if Latched(f, Zero, FatalEndSentinel) {
      var i :| Zero <= i < FatalEndSentinel && i < |f| && f[i];
      assert r[i];
    }
  }

  /** Latching is idempotent on the table. */
  lemma SetTwice(f: seq<bool>, code: nat)
    requires code < |f|
    ensures f[code := true][code := true] == f[code := true]
    ensures f[code] ==> f[code := true] == f
  {
  }

  // ---------------------------------------------------------------------------
  // The handler

  class Handler {
    const faults: array<bool>
    var minorFaultState: int
    /** When a fault was last newly latched. */
    var lastTs: bv32

    predicate Valid()
    {
      faults.Length == AllOk
    }

    /** A table with no code latched; the source leaves `lastTs` unset, here it is 0. */
    constructor ()
      ensures Valid() && fresh(faults)
      ensures forall i :: 0 <= i < AllOk ==> !faults[i]
      ensures minorFaultState == 0 && lastTs == 0
    {
      faults := new bool[AllOk];
      minorFaultState := 0;
      lastTs := 0;
      new;
      for i := 0 to AllOk
        modifies faults
        invariant forall k :: 0 <= k < i ==> !faults[k]
      {
        faults[i] := false;
      }
    }

    /**
     * Latches a code stamped with `now` (millis()). A code already latched
     * leaves everything, the time stamp included, as it was.
     */
    method SetFaultCode(fault: nat, now: bv32)
      requires Valid() && fault < AllOk
      modifies this, faults
      ensures faults[..] == old(faults[..])[fault := true]
      ensures old(faults[fault]) ==> minorFaultState == old(minorFaultState) && lastTs == old(lastTs)
      ensures !old(faults[fault]) ==> minorFaultState == 0 && lastTs == now
    {
      if !faults[fault] {
        faults[fault] := true;
        minorFaultState := 0;
        lastTs := now;
      }
    }

    /** Clears exactly one entry. */
    method UnlatchFaultCode(fault: nat)
      requires Valid() && fault < AllOk
      modifies faults
      ensures faults[..] == old(faults[..])[fault := false]
    {
      faults[fault] := false;
    }

    /**
     * Clears every recoverable code the event's row `evtTriggers` of the
     * constant event-to-code table names.
     */
    method OnFaultUnlatchEvent(evtTriggers: seq<bool>)
      requires Valid() && |evtTriggers| >= EventSpan
      modifies faults
      ensures faults[..] == AfterEvent(old(faults[..]), evtTriggers)
    {
      for i := 0 to RetryableEndSentinel - FatalEndSentinel
        invariant forall k :: 0 <= k < AllOk ==>
          faults[k] == if FatalEndSentinel < k <= FatalEndSentinel + i && evtTriggers[k - FatalEndSentinel - 1] then false else old(faults[k])
      {
        if evtTriggers[i] {
          UnlatchFaultCode(FatalEndSentinel + 1 + i);
        }
      }
    }

    /** Whether one code is latched (the private `hasFault(Type)`). */
    function HasFaultCode(fault: nat): (r: bool)
      requires Valid() && fault < AllOk
      reads this, faults
      ensures r <==> Latched(faults[..], fault, fault + 1)
    {
      faults[fault]
    }

    /** Some code in [start, end) is latched. */
    method HasFaultOfType(start: nat, end: nat) returns (r: bool)
      requires Valid() && start <= AllOk && end <= AllOk
      ensures r <==> Latched(faults[..], start, end)
    {
      var i := start;
      while i < end
        invariant start <= i
        invariant !Latched(faults[..], start, i)
      {
        if HasFaultCode(i) {
          return true;
        }
        i := i + 1;
      }
      return false;
    }

    /** A recoverable code, either sentinel included, is latched. */
    method HasMinorFault() returns (r: bool)
      requires Valid()
      ensures r <==> Latched(faults[..], FatalEndSentinel, AllOk)
    {
      r := HasFaultOfType(FatalEndSentinel, AllOk);
    }

    /** A fatal code is latched. */
    method HasMajorFault() returns (r: bool)
      requires Valid()
      ensures r <==> Latched(faults[..], Zero, FatalEndSentinel)
    {
      r := HasFaultOfType(Zero, FatalEndSentinel);
    }

    /** Any code is latched; by FaultRangesPartition, a major or a minor fault. */
    method HasFault() returns (r: bool)
      requires Valid()
      ensures r <==> Latched(faults[..], Zero, AllOk)
    {
      r := HasFaultOfType(Zero, AllOk);
    }

    /** The number of latched codes. */
    method NumFaults() returns (count: int)
      requires Valid()
      ensures count == Count(faults[..])
    {
      count := 0;
      for i := 0 to AllOk
        invariant count == Count(faults[..i])
      {
        assert faults[..i + 1][..i] == faults[..i];
        if faults[i] == true {
          count := count + 1;
        }
      }
      assert faults[..AllOk] == faults[..];
    }

    /** The least latched code at or after `start`, or -1. */
    method NextFault(start: nat) returns (r: int)
      requires Valid() && start <= AllOk
      ensures r == FirstLatched(faults[..], start)
    {
      var i := start;
      while i < AllOk
        invariant start <= i <= AllOk
        invariant FirstLatched(faults[..], start) == FirstLatched(faults[..], i)
      {
        if faults[i] == true {
          return i;
        }
        i := i + 1;
      }
      return -1;
    }
  }
}
