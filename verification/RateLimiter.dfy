/** The limiter of one endpoint: at most so many admissions in any window, kept in a list no longer than that. */
module RateLimiter {

  predicate Ordered(ts: seq<real>) { forall i, j | 0 <= i <= j < |ts| :: ts[i] <= ts[j] }

  /** How many of the times lie after the cutoff. */
  function Since(ts: seq<real>, cutoff: real): (n: nat)
    ensures n <= |ts|
  {
    if ts == [] then 0 else Since(ts[..|ts| - 1], cutoff) + if ts[|ts| - 1] > cutoff then 1 else 0
  }

  /** The calls that are let through: those with fewer than max admissions in the window before them. */
  function Admitted(calls: seq<real>, max: int, window: real): (r: seq<real>)
  {
    if calls == [] then []
    else
      var before, now := Admitted(calls[..|calls| - 1], max, window), calls[|calls| - 1];
      if Since(before, now - window) < max then before + [now] else before
  }

  /** max admissions apart, at least one window has passed. */
  predicate Spaced(ts: seq<real>, max: nat, window: real) {
    forall i | 0 <= i < |ts| - max :: ts[i + max] - ts[i] >= window
  }

  /** Where a list is cut by a cutoff, the count is what lies behind the cut. */
  lemma {:induction false} SinceCut(ts: seq<real>, k: nat, cutoff: real)
    requires k <= |ts|
    requires forall j | 0 <= j < k :: ts[j] <= cutoff
    requires forall j | k <= j < |ts| :: ts[j] > cutoff
    ensures Since(ts, cutoff) == |ts| - k
  {
    if ts != [] {
      SinceCut(ts[..|ts| - 1], if k == |ts| then k - 1 else k, cutoff);
    }
  }

  /** An ordered list is cut by every cutoff. */
  lemma {:induction false} CutOf(ts: seq<real>, cutoff: real) returns (k: nat)
    requires Ordered(ts)
    ensures k == |ts| - Since(ts, cutoff)
    ensures forall j | 0 <= j < k :: ts[j] <= cutoff
    ensures forall j | k <= j < |ts| :: ts[j] > cutoff
  {
    k := 0;
    while k < |ts| && ts[k] <= cutoff
      invariant k <= |ts| && forall j | 0 <= j < k :: ts[j] <= cutoff
    {
      k := k + 1;
    }
    SinceCut(ts, k, cutoff);
  }

  lemma {:induction false} AdmittedAreCalls(calls: seq<real>, max: int, window: real, now: real)
    requires Ordered(calls) && forall i | 0 <= i < |calls| :: calls[i] <= now
    ensures var r := Admitted(calls, max, window);
      Ordered(r) && (forall i | 0 <= i < |r| :: r[i] <= now) && (max <= 0 ==> r == [])
  {
    if calls != [] {
      AdmittedAreCalls(calls[..|calls| - 1], max, window, calls[|calls| - 1]);
    }
  }

  /** On a clock that never goes back, the admission max places later comes at least one window later. */
  lemma {:induction false} AdmissionsAreSpaced(calls: seq<real>, max: nat, window: real)
    requires Ordered(calls)
    ensures Spaced(Admitted(calls, max, window), max, window)
  {
    hide Since;
    if calls != [] {
      var init, now := calls[..|calls| - 1], calls[|calls| - 1];
      AdmissionsAreSpaced(init, max, window);
      AdmittedAreCalls(init, max, window, now);
      var before := Admitted(init, max, window);
      var k := CutOf(before, now - window);
      if Since(before, now - window) < max && |before| >= max {
        assert before[|before| - max] <= now - window;
      }
    }
  }

  lemma AdmissionUnfold(calls: seq<real>, max: int, window: real, now: real)
    ensures Admitted(calls + [now], max, window) ==
      var before := Admitted(calls, max, window);
      if Since(before, now - window) < max then before + [now] else before
  {
    hide Since;
    var all := calls + [now];
    assert all[..|all| - 1] == calls && all != [];
    assert all[|all| - 1] == now;
  }

  lemma OrderedBefore(calls: seq<real>, now: real)
    requires Ordered(calls + [now])
    ensures Ordered(calls) && forall i | 0 <= i < |calls| :: calls[i] <= now
  {
    var all := calls + [now];
    forall i, j | 0 <= i <= j < |calls| ensures calls[i] <= calls[j] && calls[i] <= now {
      assert all[i] == calls[i] && all[j] == calls[j] && all[|calls|] == now;
    }
  }

  /** A call is refused only when the max admissions before it all lie in the window that ends with it. */
  lemma RefusedOnlyWhenFull(calls: seq<real>, max: nat, window: real, now: real)
    requires Ordered(calls + [now])
    ensures var before := Admitted(calls, max, window);
      Admitted(calls + [now], max, window) == before <==>
        |before| >= max && forall j | |before| - max <= j < |before| :: before[j] > now - window
  {
    hide Admitted, Since, Ordered;
    AdmissionUnfold(calls, max, window, now);
    OrderedBefore(calls, now);
    AdmittedAreCalls(calls, max, window, now);
    FullIff(Admitted(calls, max, window), max, now - window);
  }

  lemma FullIff(before: seq<real>, max: nat, cutoff: real)
    requires Ordered(before)
    ensures Since(before, cutoff) >= max <==>
      |before| >= max && forall j | |before| - max <= j < |before| :: before[j] > cutoff
  {
    var k := CutOf(before, cutoff);
    hide Ordered, Since;
    if |before| >= max && k > |before| - max {
      assert before[|before| - max] <= cutoff;
    }
  }

  class RateLimiter {
    const max: int
    const window: real
    var hits: seq<real>
    ghost var calls: seq<real>
    ghost var dropped: nat

    /** The list is what may still count of the admissions so far. */
    ghost predicate Valid()
      reads this
    {
      && Ordered(calls)
      && var all := Admitted(calls, max, window);
        && dropped <= |all| && hits == all[dropped..]
        && (dropped > 0 ==> calls != [])
        && (forall j | 0 <= j < dropped :: all[j] <= calls[|calls| - 1] - window)
        && |hits| <= if max > 0 then max else 0
    }

    constructor (max: int, window: real)
      ensures Valid() && this.max == max && this.window == window && calls == []
    {
      this.max, this.window := max, window;
      hits, calls, dropped := [], [], 0;
    }

    /** The hit list without what lies outside the window. */
    method Trimmed(cutoff: real) returns (kept: seq<real>, ghost gone: nat)
      requires Ordered(hits)
      ensures |kept| <= |hits| && gone == |hits| - |kept| && kept == hits[gone..]
      ensures forall j | 0 <= j < gone :: hits[j] <= cutoff
      ensures forall j | gone <= j < |hits| :: hits[j] > cutoff
    {
      kept, gone := [], 0;
      for i := 0 to |hits|
        invariant gone <= i && kept == hits[gone..i]
        invariant forall j | 0 <= j < gone :: hits[j] <= cutoff
        invariant forall j | gone <= j < i :: hits[j] > cutoff
      {
        if hits[i] > cutoff {
          kept := kept + [hits[i]];
        } else {
          NoneBefore(hits, gone, i, cutoff);
          gone := i + 1;
        }
      }
    }

    /** One call at a time no earlier than the last: what is admitted is what the calls alone decide. */
    method Allow(now: real) returns (allowed: bool)
      requires Valid() && Ordered(calls + [now])
      modifies this
      ensures Valid() && calls == old(calls) + [now]
      ensures allowed <==> Since(Admitted(old(calls), max, window), now - window) < max
      ensures allowed <==> Admitted(calls, max, window) != Admitted(old(calls), max, window)
    {
      hide Admitted, Since, Ordered;
      ghost var all := Admitted(calls, max, window);
      AdmissionUnfold(calls, max, window, now);
      OrderedBefore(calls, now);
      AdmittedAreCalls(calls, max, window, now);
      TailOrdered(all, dropped);
      ghost var gone;
      hits, gone := Trimmed(now - window);
      assert dropped > 0 ==> calls[|calls| - 1] <= now;
      CutMoves(all, dropped, gone, now - window);
      dropped := dropped + gone;
      SinceCut(all, dropped, now - window);
      calls := calls + [now];
      allowed := |hits| < max;
      if allowed { hits := hits + [now]; }
    }
  }

  /** In an ordered list nothing after the cutoff comes before an element that is not. */
  lemma NoneBefore(ts: seq<real>, from: nat, i: nat, cutoff: real)
    requires Ordered(ts) && from <= i < |ts| && ts[i] <= cutoff
    requires forall j | from <= j < i :: ts[j] > cutoff
    ensures from == i
  {
    assert ts[from] <= ts[i];
  }

  lemma TailOrdered(ts: seq<real>, k: nat)
    requires Ordered(ts) && k <= |ts|
    ensures Ordered(ts[k..])
  {
  }

  lemma CutMoves(ts: seq<real>, k: nat, gone: nat, cutoff: real)
    requires k <= |ts| && gone <= |ts| - k
    requires forall j | 0 <= j < k :: ts[j] <= cutoff
    requires forall j | 0 <= j < gone :: ts[k..][j] <= cutoff
    requires forall j | gone <= j < |ts| - k :: ts[k..][j] > cutoff
    ensures ts[k..][gone..] == ts[k + gone..]
    ensures forall j | 0 <= j < k + gone :: ts[j] <= cutoff
    ensures forall j | k + gone <= j < |ts| :: ts[j] > cutoff
  {
    forall j | k <= j < |ts| ensures ts[j] == ts[k..][j - k] {
    }
  }
}
