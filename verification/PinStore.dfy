/**
 The PIN gate's lockout store: sliding windows over wrong codes, a size cap that must not release a
 lock, and a restart replay that must leave what live recording would have left.
 */
module PinStore {
  import opened Wrappers

  const WINDOW := 900.0
  const NUMBER_LIMIT := 5
  const ROUTE_LIMIT := 20
  const CAP := 10_000

  /** A caller's or a route's stamps, oldest first. */
  type Table = map<string, seq<real>>

  function Get(t: Table, key: string): seq<real> {
    if key in t then t[key] else []
  }

  function NormalizeDid(number: string): string {
    if number == "" then ""
    else (if '0' <= number[0] <= '9' then [number[0]] else "") + NormalizeDid(number[1..])
  }

  /** Two ways of writing one number are one caller: each digit of it counts, in order, and nothing else does. */
  lemma {:induction false} DigitsCount(before: string, c: char, after: string)
    ensures NormalizeDid(before + [c] + after) ==
      NormalizeDid(before) + (if '0' <= c <= '9' then [c] else "") + NormalizeDid(after)
  {
    if before == "" {
      assert ([c] + after)[1..] == after && "" + [c] + after == [c] + after;
    } else {
      assert (before + [c] + after)[1..] == before[1..] + [c] + after;
      DigitsCount(before[1..], c, after);
    }
  }

  /** The stamps later than the cutoff, in order. */
  function After(s: seq<real>, cutoff: real): (r: seq<real>)
    ensures |r| <= |s|
  {
    if s == [] then [] else (if s[0] > cutoff then [s[0]] else []) + After(s[1..], cutoff)
  }

  predicate Sorted(s: seq<real>) {
    forall i, j | 0 <= i < j < |s| :: s[i] <= s[j]
  }

  function Last(s: seq<real>): real
    requires s != []
  {
    s[|s| - 1]
  }

  lemma {:induction false} AfterConcat(a: seq<real>, b: seq<real>, cutoff: real)
    ensures After(a + b, cutoff) == After(a, cutoff) + After(b, cutoff)
  {
    if a == [] {
      assert a + b == b;
    } else {
      assert (a + b)[1..] == a[1..] + b;
      AfterConcat(a[1..], b, cutoff);
    }
  }

  lemma {:induction false} AfterAfter(s: seq<real>, early: real, late: real)
    requires early <= late
    ensures After(After(s, early), late) == After(s, late)
  {
    if s != [] {
      AfterConcat(if s[0] > early then [s[0]] else [], After(s[1..], early), late);
      AfterAfter(s[1..], early, late);
    }
  }

  lemma {:induction false} AfterHolds(s: seq<real>, cutoff: real)
    ensures forall x | x in After(s, cutoff) :: x > cutoff && x in s
  {
    if s != [] {
      AfterHolds(s[1..], cutoff);
      assert s == [s[0]] + s[1..];
    }
  }

  lemma {:induction false} AfterKeepsOrder(s: seq<real>, cutoff: real)
    requires Sorted(s)
    ensures Sorted(After(s, cutoff))
  {
    if s != [] {
      AfterKeepsOrder(s[1..], cutoff);
      AfterHolds(s[1..], cutoff);
      var rest := After(s[1..], cutoff);
      forall i | 0 <= i < |rest| ensures s[0] <= rest[i] {
        assert rest[i] in rest;
        var k :| 0 <= k < |s[1..]| && s[1..][k] == rest[i];
        assert s[1..][k] == s[k + 1];
      }
    }
  }

  /** A window is empty exactly when the latest stamp has left it, and otherwise ends with that stamp. */
  lemma AfterEnds(s: seq<real>, cutoff: real)
    requires s != [] && Sorted(s)
    ensures After(s, cutoff) == [] <==> Last(s) <= cutoff
    ensures After(s, cutoff) != [] ==> Last(After(s, cutoff)) == Last(s)
  {
    var init, last := s[..|s| - 1], [Last(s)];
    assert s == init + last;
    AfterConcat(init, last, cutoff);
    AfterHolds(init, cutoff);
    var a := After(init, cutoff);
    forall x | x in a ensures cutoff < x <= Last(s) {
      assert x in init;
    }
    assert a != [] ==> a[0] in a;
  }

  lemma {:induction false} AfterShrinks(s: seq<real>, a: real, b: real)
    ensures |After(After(s, a), b)| <= |After(s, b)|
  {
    if s != [] {
      AfterConcat(if s[0] > a then [s[0]] else [], After(s[1..], a), b);
      AfterShrinks(s[1..], a, b);
    }
  }

  // Sorting

  function InsertStamp(s: seq<real>, x: real): seq<real> {
    if s != [] && Last(s) > x then InsertStamp(s[..|s| - 1], x) + [Last(s)] else s + [x]
  }

  /** sorted(stamps) */
  function SortStamps(s: seq<real>): seq<real> {
    if s == [] then [] else InsertStamp(SortStamps(s[..|s| - 1]), Last(s))
  }

  lemma {:induction false} InsertKeeps(s: seq<real>, x: real)
    ensures multiset(InsertStamp(s, x)) == multiset(s) + multiset{x}
  {
    hide InsertStamp;
    InsertUnfold(s, x);
    if s != [] && Last(s) > x {
      var init := s[..|s| - 1];
      InsertKeeps(init, x);
      assert s == init + [Last(s)];
      assert multiset(InsertStamp(s, x)) == multiset(InsertStamp(init, x)) + multiset{Last(s)};
    }
  }

  lemma {:induction false} InsertSorts(s: seq<real>, x: real)
    requires Sorted(s)
    ensures Sorted(InsertStamp(s, x)) && multiset(InsertStamp(s, x)) == multiset(s) + multiset{x}
  {
    InsertKeeps(s, x);
    if s != [] && Last(s) > x {
      var init := s[..|s| - 1];
      InsertSorts(init, x);
      var r := InsertStamp(init, x);
      hide InsertStamp;
      forall i | 0 <= i < |r| ensures r[i] <= Last(s) {
        assert r[i] in multiset(r);
        assert r[i] == x || r[i] in init;
      }
    }
  }

  lemma {:induction false} SortSorts(s: seq<real>)
    ensures Sorted(SortStamps(s)) && multiset(SortStamps(s)) == multiset(s)
  {
    if s != [] {
      SortSorts(s[..|s| - 1]);
      InsertSorts(SortStamps(s[..|s| - 1]), Last(s));
      assert s == s[..|s| - 1] + [Last(s)];
    }
  }

  lemma AfterOne(x: real, cutoff: real)
    ensures After([x], cutoff) == if x > cutoff then [x] else []
  {
  }

  lemma InsertUnfold(s: seq<real>, x: real)
    ensures InsertStamp(s, x) == if s != [] && Last(s) > x then InsertStamp(s[..|s| - 1], x) + [Last(s)] else s + [x]
  {
  }

  lemma {:induction false} AfterInsert(s: seq<real>, x: real, cutoff: real)
    requires Sorted(s)
    ensures After(InsertStamp(s, x), cutoff) ==
      if x > cutoff then InsertStamp(After(s, cutoff), x) else After(s, cutoff)
  {
    hide After, InsertStamp;
    InsertUnfold(s, x);
    AfterOne(x, cutoff);
    if s != [] && Last(s) > x {
      var init := s[..|s| - 1];
      assert s == init + [Last(s)];
      AfterConcat(init, [Last(s)], cutoff);
      AfterConcat(InsertStamp(init, x), [Last(s)], cutoff);
      AfterInsert(init, x, cutoff);
      AfterOne(Last(s), cutoff);
      InsertUnfold(After(init, cutoff) + [Last(s)], x);
      assert (After(init, cutoff) + [Last(s)])[..|After(init, cutoff)|] == After(init, cutoff);
    } else {
      AfterConcat(s, [x], cutoff);
      if s != [] { AfterEnds(s, cutoff); }
      InsertUnfold(After(s, cutoff), x);
    }
  }

  lemma AfterSortStep(init: seq<real>, last: real, cutoff: real)
    requires After(SortStamps(init), cutoff) == SortStamps(After(init, cutoff))
    ensures After(InsertStamp(SortStamps(init), last), cutoff) ==
      SortStamps(After(init, cutoff) + After([last], cutoff))
  {
    hide InsertStamp;
    SortSorts(init);
    AfterInsert(SortStamps(init), last, cutoff);
    if last > cutoff {
      assert After([last], cutoff) == [last];
    } else {
      assert After([last], cutoff) == [];
      assert After(init, cutoff) + [] == After(init, cutoff);
    }
  }

  /** Sorting and dropping what has left the window commute. */
  lemma {:induction false} AfterSort(s: seq<real>, cutoff: real)
    ensures After(SortStamps(s), cutoff) == SortStamps(After(s, cutoff))
  {
    if s != [] {
      var init := s[..|s| - 1];
      AfterSort(init, cutoff);
      AfterSortStep(init, Last(s), cutoff);
      AfterConcat(init, [Last(s)], cutoff);
      assert s == init + [Last(s)];
    }
  }

  lemma {:induction false} SortLength(s: seq<real>)
    ensures |SortStamps(s)| == |s|
  {
    SortSorts(s);
    assert |multiset(SortStamps(s))| == |multiset(s)|;
  }

  // The proxy's call log, as the store reads it

  datatype LoggedCall = LoggedCall(
    attempts: Option<int>, startedAt: Option<real>, endedAt: Option<real>,
    outcome: string, number: string, route: string)

  datatype Replay = Replay(start: real, at: real, number: string, route: string, failures: nat, verified: bool)

  function Replayed(call: LoggedCall): Option<Replay> {
    if call.attempts.None? || call.attempts.value <= 0 || call.startedAt.None? then None
    else
      var start := call.startedAt.value;
      if call.outcome in {"pin_failed", "pin_timeout"} then
        var at := if call.endedAt.Some? && call.endedAt.value != 0.0 then call.endedAt.value else start;
        Some(Replay(start, at, call.number, call.route, call.attempts.value, false))
      else
        Some(Replay(start, start, call.number, call.route, call.attempts.value - 1, call.outcome == "completed"))
  }

  /** The calls that count and started before this process did. */
  function Events(calls: seq<LoggedCall>, startedWall: real): seq<Replay> {
    if calls == [] then []
    else
      var r := Replayed(calls[0]);
      (if r.Some? && r.value.start < startedWall then [r.value] else []) + Events(calls[1..], startedWall)
  }

  predicate InOrder(es: seq<Replay>) {
    forall i, j | 0 <= i < j < |es| :: es[i].at <= es[j].at
  }

  function InsertEvent(es: seq<Replay>, e: Replay): seq<Replay> {
    if es != [] && es[|es| - 1].at > e.at then InsertEvent(es[..|es| - 1], e) + [es[|es| - 1]] else es + [e]
  }

  /** sorted(events, key=at) */
  function SortEvents(es: seq<Replay>): seq<Replay> {
    if es == [] then [] else InsertEvent(SortEvents(es[..|es| - 1]), es[|es| - 1])
  }

  lemma {:induction false} InsertEventKeeps(es: seq<Replay>, e: Replay)
    ensures multiset(InsertEvent(es, e)) == multiset(es) + multiset{e}
  {
    if es != [] && es[|es| - 1].at > e.at {
      var init, last := es[..|es| - 1], es[|es| - 1];
      InsertEventKeeps(init, e);
      assert es == init + [last];
      assert multiset(InsertEvent(es, e)) == multiset(InsertEvent(init, e)) + multiset{last};
    }
  }

  lemma {:induction false} InsertEventSorts(es: seq<Replay>, e: Replay)
    requires InOrder(es)
    ensures InOrder(InsertEvent(es, e)) && multiset(InsertEvent(es, e)) == multiset(es) + multiset{e}
  {
    InsertEventKeeps(es, e);
    if es != [] && es[|es| - 1].at > e.at {
      var init, last := es[..|es| - 1], es[|es| - 1];
      InsertEventSorts(init, e);
      var r := InsertEvent(init, e);
      forall i | 0 <= i < |r| ensures r[i].at <= last.at {
        assert r[i] in multiset(r);
        assert r[i] == e || r[i] in init;
      }
    }
  }

  lemma {:induction false} SortEventsSorts(es: seq<Replay>)
    ensures InOrder(SortEvents(es)) && multiset(SortEvents(es)) == multiset(es)
  {
    if es != [] {
      hide InsertEvent, InOrder, SortEvents;
      var init, last := es[..|es| - 1], es[|es| - 1];
      SortEventsSorts(init);
      InsertEventSorts(SortEvents(init), last);
      SortEventsUnfold(es);
      assert multiset(es) == multiset(init) + multiset{last} by { assert es == init + [last]; }
    }
  }

  lemma SortEventsUnfold(es: seq<Replay>)
    requires es != []
    ensures SortEvents(es) == InsertEvent(SortEvents(es[..|es| - 1]), es[|es| - 1])
  {
  }

  // What the gate does with one call, and the row it is logged as

  /** How one attempt ends: a wrong code, none, the right one, the entry deadline, or the call itself. */
  datatype Answer = Wrong | Silent | Right | TimesOut | Ends

  datatype Verdict = Passed | Refused(outcome: string) | Ended

  /** What the gate left: attempts begun, failures recorded, and its verdict; a clear goes with Passed. */
  datatype Gate = Gate(attempts: nat, failures: nat, verdict: Verdict)

  /** A call that met the gate; `rest` is what it was logged as unless the gate refused it. */
  datatype GateCall = GateCall(
    start: real, end: real, number: string, route: string, outbound: bool,
    cooldown: bool, max: nat, answers: seq<Answer>, rest: string)

  const REFUSED := {"pin_failed", "pin_timeout"}

  /** The attempt loop; on an outbound call only a wrong code counts. */
  function Attempts(answers: seq<Answer>, max: nat, outbound: bool, k: nat, failures: nat): (g: Gate)
    requires k <= max
    ensures !outbound && failures == k ==>
      g.failures == if g.verdict.Refused? then g.attempts else g.attempts - 1
    ensures k <= g.attempts && failures <= g.failures <= g.attempts + failures - k
    ensures !g.verdict.Refused? ==> g.attempts > 0
    ensures g.verdict.Refused? ==> g.verdict.outcome in REFUSED
    decreases max - k
  {
    var counted := if outbound then failures else failures + 1;
    if k == max then Gate(k, failures, Refused(if outbound && failures == 0 then "pin_timeout" else "pin_failed"))
    else
      match if k < |answers| then answers[k] else Ends
      case Wrong => Attempts(answers, max, outbound, k + 1, failures + 1)
      case Silent => Attempts(answers, max, outbound, k + 1, counted)
      case Right => Gate(k + 1, failures, Passed)
      case TimesOut => Gate(k + 1, counted, Refused("pin_timeout"))
      case Ends => Gate(k + 1, failures, Ended)
  }

  /** The answers that count as failures while the loop goes on. */
  function Counted(answers: seq<Answer>, outbound: bool): nat {
    if answers == [] then 0
    else (if answers[0] == Wrong || (answers[0] == Silent && !outbound) then 1 else 0) + Counted(answers[1..], outbound)
  }

  /** The gate goes on through wrong and silent entries up to the limit, and the first other answer is its verdict. */
  lemma {:induction false} GateDecides(answers: seq<Answer>, max: nat, outbound: bool, k: nat, failures: nat, i: nat)
    requires k <= i <= max && i <= |answers| && forall j | k <= j < i :: answers[j] in {Wrong, Silent}
    ensures var g, f := Attempts(answers, max, outbound, k, failures), failures + Counted(answers[k..i], outbound);
      if i == max then g == Gate(max, f, Refused(if outbound && f == 0 then "pin_timeout" else "pin_failed"))
      else
        match if i < |answers| then answers[i] else Ends
        case Right => g == Gate(i + 1, f, Passed)
        case TimesOut => g == Gate(i + 1, if outbound then f else f + 1, Refused("pin_timeout"))
        case Ends => g == Gate(i + 1, f, Ended)
        case _ => true
    decreases i - k
  {
    if k < i {
      assert answers[k..i][1..] == answers[k + 1..i];
      var counts := answers[k] == Wrong || !outbound;
      GateDecides(answers, max, outbound, k + 1, if counts then failures + 1 else failures, i);
    }
  }

  function AtGate(c: GateCall): Gate {
    if c.cooldown then Gate(0, 0, Refused("pin_cooldown")) else Attempts(c.answers, c.max, c.outbound, 0, 0)
  }

  /** The call's row in the log; an outbound one carries the failures that counted. */
  function Row(c: GateCall): LoggedCall {
    var g := AtGate(c);
    LoggedCall(Some(if c.outbound then g.failures else g.attempts), Some(c.start), Some(c.end),
               if g.verdict.Refused? then g.verdict.outcome else c.rest, c.number, c.route)
  }

  predicate Proper(c: GateCall) { 0.0 < c.start <= c.end && c.rest !in REFUSED }

  /** The replay takes the row for what the gate did: its failures, at the call's end if refused, and its clear. */
  predicate TakenAsItWas(c: GateCall) {
    var g, r := AtGate(c), Replayed(Row(c));
    if r.None? then g.failures == 0 && !g.verdict.Passed?
    else r.value == Replay(c.start, if g.verdict.Refused? then c.end else c.start, c.number, c.route, g.failures,
                           g.verdict.Passed?)
  }

  /**
   Exactly when: a refused call always is; one that passed only if inbound and logged as completed, so one that passed
   and was hung up on is not; one that ended in the middle of an entry unless it was logged as completed, or was
   outbound with a code that counted.
   */
  lemma TakenAsItWasIff(c: GateCall)
    requires Proper(c)
    ensures var g := AtGate(c);
      TakenAsItWas(c) <==>
        match g.verdict
        case Refused(_) => true
        case Passed => !c.outbound && c.rest == "completed"
        case Ended => if c.outbound then g.failures == 0 else c.rest != "completed"
  {
  }

  /** A caller turned away in cooldown leaves no failure, live or replayed; any other call begins an attempt. */
  lemma CooldownLeavesNoTrace(c: GateCall)
    ensures c.cooldown ==> AtGate(c).failures == 0 && Replayed(Row(c)).None?
    ensures !c.cooldown && c.max > 0 ==> AtGate(c).attempts > 0
  {
  }

  /** A call that started in this process's time, or has no start, is not replayed: its failures are in memory. */
  lemma {:induction false} LaterCallIsSkipped(before: seq<LoggedCall>, call: LoggedCall, after: seq<LoggedCall>,
                                              wall: real)
    requires call.startedAt.None? || call.startedAt.value >= wall
    ensures Events(before + [call] + after, wall) == Events(before + after, wall)
    ensures OldestFirst(before + [call] + after, wall) == OldestFirst(before + after, wall)
  {
    if before == [] {
      assert (before + [call] + after)[1..] == after && before + after == after;
    } else {
      assert (before + [call] + after)[1..] == before[1..] + [call] + after;
      assert (before + after)[1..] == before[1..] + after;
      LaterCallIsSkipped(before[1..], call, after, wall);
    }
  }

  /** What the gate itself did in the calls begun before the process, among those the log's query returns. */
  function GateEvents(cs: seq<GateCall>, wall: real): seq<Replay> {
    if cs == [] then []
    else
      var c, g := cs[0], AtGate(cs[0]);
      var counts := (if c.outbound then g.failures else g.attempts) > 0 && c.start < wall;
      (if !counts then []
       else [Replay(c.start, if g.verdict.Refused? then c.end else c.start, c.number, c.route, g.failures,
                    g.verdict.Passed?)])
      + GateEvents(cs[1..], wall)
  }

  /** The rows of the gate's calls. */
  function Rows(cs: seq<GateCall>): seq<LoggedCall> { seq(|cs|, i requires 0 <= i < |cs| => Row(cs[i])) }

  /** Read back, the log is what the gate did, call by call, whenever each of its rows is taken as it was. */
  lemma {:induction false} LogIsTheGates(cs: seq<GateCall>, wall: real)
    requires forall i | 0 <= i < |cs| :: Proper(cs[i]) && TakenAsItWas(cs[i])
    ensures Events(Rows(cs), wall) == GateEvents(cs, wall)
  {
    hide AtGate;
    if cs != [] {
      assert Rows(cs)[1..] == Rows(cs[1..]) && Rows(cs)[0] == Row(cs[0]);
      LogIsTheGates(cs[1..], wall);
    }
  }

  // What the replay builds, and what a live store would hold

  datatype Windows = Windows(numbers: Table, routes: Table)

  function Repeat(t: real, n: nat): seq<real> {
    seq(n, _ => t)
  }

  /** setdefault(owner, []).extend([t] * n), for the failures still inside the window. */
  function SeedFailures(table: Table, owner: string, t: real, n: nat, cutoff: real): Table {
    if n > 0 && t > cutoff && owner != "" then table[owner := Get(table, owner) + Repeat(t, n)] else table
  }

  function SeedStep(w: Windows, e: Replay, t: real, cutoff: real): Windows {
    var key := NormalizeDid(e.number);
    var failed := SeedFailures(w.numbers, key, t, e.failures, cutoff);
    Windows(
      if e.verified && key != "" then failed - {key} else failed,
      SeedFailures(w.routes, e.route, t, e.failures, cutoff))
  }

  /** The tables seed() builds apart, from the events oldest first. */
  function Seeded(es: seq<Replay>, offset: real, cutoff: real): Windows {
    if es == [] then Windows(map[], map[])
    else
      var e := es[|es| - 1];
      SeedStep(Seeded(es[..|es| - 1], offset, cutoff), e, e.at + offset, cutoff)
  }

  /** One window after `n` failures recorded live at `t`, each pruning first. */
  function Recorded(s: seq<real>, t: real, n: nat): seq<real> {
    if n == 0 then s else After(Recorded(s, t, n - 1), t - WINDOW) + [t]
  }

  function LiveFailures(table: Table, owner: string, t: real, n: nat): Table {
    if n > 0 && owner != "" then table[owner := Recorded(Get(table, owner), t, n)] else table
  }

  function LiveStep(w: Windows, e: Replay, t: real): Windows {
    var key := NormalizeDid(e.number);
    var failed := LiveFailures(w.numbers, key, t, e.failures);
    Windows(
      if e.verified && key != "" then failed - {key} else failed,
      LiveFailures(w.routes, e.route, t, e.failures))
  }

  /** A store that saw these calls happen, in time order. */
  function Live(es: seq<Replay>, offset: real): Windows {
    if es == [] then Windows(map[], map[])
    else
      var e := es[|es| - 1];
      LiveStep(Live(es[..|es| - 1], offset), e, e.at + offset)
  }

  lemma {:induction false} AfterRecorded(s: seq<real>, t: real, n: nat, cutoff: real)
    requires t - WINDOW <= cutoff
    ensures After(Recorded(s, t, n), cutoff) == After(s, cutoff) + if t > cutoff then Repeat(t, n) else []
  {
    hide After;
    if n > 0 {
      var before := Recorded(s, t, n - 1);
      AfterRecorded(s, t, n - 1, cutoff);
      AfterConcat(After(before, t - WINDOW), [t], cutoff);
      AfterAfter(before, t - WINDOW, cutoff);
      AfterOne(t, cutoff);
      assert Repeat(t, n) == Repeat(t, n - 1) + [t];
    }
  }

  /** No event of the log lies further ahead of the cutoff than one window: none is in the future. */
  predicate NotAhead(es: seq<Replay>, offset: real, cutoff: real) {
    forall i | 0 <= i < |es| :: es[i].at + offset - WINDOW <= cutoff
  }

  /** A restart agrees with never having restarted: every window holds the same live stamps. */
  lemma {:induction false} ReplayEqualsLive(es: seq<Replay>, offset: real, cutoff: real, key: string)
    requires NotAhead(es, offset, cutoff)
    ensures Get(Seeded(es, offset, cutoff).numbers, key) == After(Get(Live(es, offset).numbers, key), cutoff)
    ensures Get(Seeded(es, offset, cutoff).routes, key) == After(Get(Live(es, offset).routes, key), cutoff)
  {
    hide After, SeedFailures, LiveFailures, NormalizeDid;
    if es != [] {
      var e, before := es[|es| - 1], es[..|es| - 1];
      var seeded, live, t := Seeded(before, offset, cutoff), Live(before, offset), e.at + offset;
      ReplayEqualsLive(before, offset, cutoff, key);
      FailuresAgree(seeded.numbers, live.numbers, NormalizeDid(e.number), t, e.failures, cutoff, key);
      FailuresAgree(seeded.routes, live.routes, e.route, t, e.failures, cutoff, key);
    }
  }

  lemma FailuresAgree(seeded: Table, live: Table, owner: string, t: real, n: nat, cutoff: real, key: string)
    requires t - WINDOW <= cutoff
    requires Get(seeded, key) == After(Get(live, key), cutoff)
    ensures Get(SeedFailures(seeded, owner, t, n, cutoff), key) ==
      After(Get(LiveFailures(live, owner, t, n), key), cutoff)
  {
    hide After, Recorded, Repeat;
    AfterRecorded(Get(live, key), t, n, cutoff);
  }

  // What survives of the log, stamp by stamp

  /** Event i put its failures under the route, and they are still inside the window. */
  predicate RouteStamp(es: seq<Replay>, i: nat, route: string, offset: real, cutoff: real)
    requires i < |es|
  {
    es[i].route == route && route != "" && es[i].failures > 0 && es[i].at + offset > cutoff
  }

  /** Event i put its failures under the caller, and no later call, nor this one, cleared them. */
  predicate NumberStamp(es: seq<Replay>, i: nat, key: string, offset: real, cutoff: real)
    requires i < |es|
  {
    && NormalizeDid(es[i].number) == key && key != "" && es[i].failures > 0 && es[i].at + offset > cutoff
    && forall j | i <= j < |es| && NormalizeDid(es[j].number) == key :: !es[j].verified
  }

  lemma RepeatHolds(s: seq<real>, t: real, n: nat, x: real)
    ensures x in s + Repeat(t, n) <==> x in s || (n > 0 && x == t)
  {
    if n > 0 { assert Repeat(t, n)[0] == t; }
  }

  /** A route's replayed stamps are exactly those of its calls that failed inside the window. */
  lemma {:induction false} SeededRouteStamps(es: seq<Replay>, offset: real, cutoff: real, route: string, x: real)
    ensures x in Get(Seeded(es, offset, cutoff).routes, route) <==>
      exists i | 0 <= i < |es| :: RouteStamp(es, i, route, offset, cutoff) && x == es[i].at + offset
  {
    hide NormalizeDid, Repeat;
    if es != [] {
      var init, e := es[..|es| - 1], es[|es| - 1];
      SeededRouteStamps(init, offset, cutoff, route, x);
      RepeatHolds(Get(Seeded(init, offset, cutoff).routes, route), e.at + offset, e.failures, x);
      if i :| 0 <= i < |es| && RouteStamp(es, i, route, offset, cutoff) && x == es[i].at + offset {
        if i < |init| { assert RouteStamp(init, i, route, offset, cutoff); }
      }
      if i :| 0 <= i < |init| && RouteStamp(init, i, route, offset, cutoff) && x == init[i].at + offset {
        assert RouteStamp(es, i, route, offset, cutoff);
      }
      assert RouteStamp(es, |init|, route, offset, cutoff) <==>
        e.route == route && route != "" && e.failures > 0 && e.at + offset > cutoff;
    }
  }

  /** A caller's are those of its calls that failed inside the window since its last cleared one. */
  lemma {:induction false} SeededNumberStamps(es: seq<Replay>, offset: real, cutoff: real, key: string, x: real)
    ensures x in Get(Seeded(es, offset, cutoff).numbers, key) <==>
      exists i | 0 <= i < |es| :: NumberStamp(es, i, key, offset, cutoff) && x == es[i].at + offset
  {
    hide NormalizeDid, Repeat;
    if es != [] {
      var init, e := es[..|es| - 1], es[|es| - 1];
      var clears := e.verified && NormalizeDid(e.number) == key;
      SeededNumberStamps(init, offset, cutoff, key, x);
      RepeatHolds(Get(Seeded(init, offset, cutoff).numbers, key), e.at + offset, e.failures, x);
      NumberStampStep(es, offset, cutoff, key);
    }
  }

  lemma NumberStampStep(es: seq<Replay>, offset: real, cutoff: real, key: string)
    requires es != []
    ensures var init, e := es[..|es| - 1], es[|es| - 1];
      && (forall i | 0 <= i < |init| ::
            NumberStamp(es, i, key, offset, cutoff) <==>
              NumberStamp(init, i, key, offset, cutoff) && !(e.verified && NormalizeDid(e.number) == key))
      && (NumberStamp(es, |init|, key, offset, cutoff) <==>
            NormalizeDid(e.number) == key && key != "" && e.failures > 0 && e.at + offset > cutoff && !e.verified)
  {
    hide NormalizeDid;
    var init, e := es[..|es| - 1], es[|es| - 1];
    forall i | 0 <= i < |init|
      ensures NumberStamp(es, i, key, offset, cutoff) <==>
        NumberStamp(init, i, key, offset, cutoff) && !(e.verified && NormalizeDid(e.number) == key)
    {
      assert forall j | 0 <= j < |init| :: init[j] == es[j];
      if NumberStamp(es, i, key, offset, cutoff) { assert es[|init|] == e; }
    }
  }

  // What a logged call does to its caller's window

  /** A logged call of this caller that the gate refused, inside the window, begun before this process. */
  predicate RefusedInside(call: LoggedCall, key: string, wall: real, offset: real, cutoff: real) {
    && NormalizeDid(call.number) == key && key != "" && call.outcome in REFUSED
    && call.attempts.Some? && call.attempts.value >= NUMBER_LIMIT
    && call.startedAt.Some? && call.startedAt.value < wall && RefusedAt(call) + offset > cutoff
  }

  /** When its failures count: at its end, or at its start when it was logged without an end. */
  function RefusedAt(call: LoggedCall): real
    requires call.startedAt.Some?
  {
    if call.endedAt.Some? && call.endedAt.value != 0.0 then call.endedAt.value else call.startedAt.value
  }

  /** A logged call of this caller that passed the gate and ran to its end. */
  predicate CompletedBefore(call: LoggedCall, key: string, wall: real) {
    && NormalizeDid(call.number) == key && key != "" && call.outcome == "completed"
    && call.attempts.Some? && call.attempts.value > 0 && call.startedAt.Some? && call.startedAt.value < wall
  }

  lemma {:induction false} EventsHold(calls: seq<LoggedCall>, wall: real, r: Replay)
    ensures r in Events(calls, wall) <==>
      exists i | 0 <= i < |calls| :: Replayed(calls[i]) == Some(r) && r.start < wall
  {
    hide Replayed;
    if calls != [] {
      EventsHold(calls[1..], wall, r);
      assert forall i | 0 < i < |calls| :: calls[i] == calls[1..][i - 1];
      if r in Events(calls[1..], wall) {
        var j :| 0 <= j < |calls[1..]| && Replayed(calls[1..][j]) == Some(r);
        assert Replayed(calls[j + 1]) == Some(r);
      }
      if i :| 0 <= i < |calls| && Replayed(calls[i]) == Some(r) && r.start < wall {
        if i > 0 { assert Replayed(calls[1..][i - 1]) == Some(r); }
      }
    }
  }

  /** The replayable calls in the order of their moments. */
  function OldestFirst(calls: seq<LoggedCall>, wall: real): seq<Replay> { SortEvents(Events(calls, wall)) }

  lemma SortedHold(calls: seq<LoggedCall>, wall: real, r: Replay)
    ensures r in OldestFirst(calls, wall) <==>
      exists i | 0 <= i < |calls| :: Replayed(calls[i]) == Some(r) && r.start < wall
    ensures InOrder(OldestFirst(calls, wall))
  {
    hide Events, SortEvents;
    EventsHold(calls, wall, r);
    SortEventsSorts(Events(calls, wall));
    assert r in OldestFirst(calls, wall) <==> r in multiset(Events(calls, wall));
  }

  /** A caller's rebuilt window has every failure of each call that put some there. */
  lemma {:induction false} SeededAtLeast(es: seq<Replay>, i: nat, key: string, offset: real, cutoff: real, now: real)
    requires i < |es| && NumberStamp(es, i, key, offset, cutoff) && es[i].at + offset > now
    ensures |After(Get(Seeded(es, offset, cutoff).numbers, key), now)| >= es[i].failures
  {
    hide NormalizeDid, After, NumberStamp;
    var init, e := es[..|es| - 1], es[|es| - 1];
    var t := e.at + offset;
    NumberStampStep(es, offset, cutoff, key);
    SeededGrows(es, key, offset, cutoff);
    AfterConcat(Get(Seeded(init, offset, cutoff).numbers, key), Repeat(t, e.failures), now);
    if i < |init| {
      SeededAtLeast(init, i, key, offset, cutoff, now);
    } else {
      RepeatAfter(t, e.failures, now);
    }
  }

  lemma SeededGrows(es: seq<Replay>, key: string, offset: real, cutoff: real)
    requires es != []
    ensures var init, e := es[..|es| - 1], es[|es| - 1];
      var before := Get(Seeded(init, offset, cutoff).numbers, key);
      var t := e.at + offset;
      Get(Seeded(es, offset, cutoff).numbers, key) ==
        if NormalizeDid(e.number) != key || key == "" then before
        else if e.verified then []
        else before + if e.failures > 0 && t > cutoff then Repeat(t, e.failures) else []
  {
    hide NormalizeDid, Repeat;
  }

  /** Only a completed call clears, at its start. */
  lemma VerifiedCompleted(calls: seq<LoggedCall>, wall: real, r: Replay)
    requires r in OldestFirst(calls, wall)
    ensures r.verified && NormalizeDid(r.number) != "" ==>
      exists n | 0 <= n < |calls| ::
        CompletedBefore(calls[n], NormalizeDid(r.number), wall) && calls[n].startedAt.value == r.at
  {
    hide NormalizeDid, OldestFirst;
    SortedHold(calls, wall, r);
    var n :| 0 <= n < |calls| && Replayed(calls[n]) == Some(r);
    assert r.verified && NormalizeDid(r.number) != "" ==> CompletedBefore(calls[n], NormalizeDid(r.number), wall);
  }

  /**
   A refused call of five attempts inside the window leaves its caller with five stamps inside it, wherever the call
   stands in the log, unless a completed call of that caller began at or after the moment it was refused.
   */
  lemma RefusedCallCounts(calls: seq<LoggedCall>, i: nat, key: string, wall: real, offset: real, cutoff: real,
                          now: real)
    requires i < |calls| && RefusedInside(calls[i], key, wall, offset, cutoff) && RefusedAt(calls[i]) + offset > now
    requires forall j | 0 <= j < |calls| && CompletedBefore(calls[j], key, wall) ::
      calls[j].startedAt.value < RefusedAt(calls[i])
    ensures |After(Get(Seeded(OldestFirst(calls, wall), offset, cutoff).numbers, key), now)| >= NUMBER_LIMIT
  {
    hide NormalizeDid, Seeded, After, OldestFirst;
    var es, r := OldestFirst(calls, wall), Replayed(calls[i]).value;
    assert Replayed(calls[i]) == Some(r);
    SortedHold(calls, wall, r);
    var m :| 0 <= m < |es| && es[m] == r;
    forall j | m <= j < |es| && NormalizeDid(es[j].number) == key ensures !es[j].verified {
      VerifiedCompleted(calls, wall, es[j]);
    }
    SeededAtLeast(es, m, key, offset, cutoff, now);
  }

  /** A completed call clears its caller: nothing of before its start is left of the log. */
  lemma CompletedCallClears(calls: seq<LoggedCall>, i: nat, key: string, wall: real, offset: real, cutoff: real,
                            x: real)
    requires i < |calls| && CompletedBefore(calls[i], key, wall)
    requires x in Get(Seeded(OldestFirst(calls, wall), offset, cutoff).numbers, key)
    ensures x >= calls[i].startedAt.value + offset
  {
    hide NormalizeDid, Seeded, OldestFirst;
    var es, r := OldestFirst(calls, wall), Replayed(calls[i]).value;
    assert Replayed(calls[i]) == Some(r);
    SortedHold(calls, wall, r);
    var m :| 0 <= m < |es| && es[m] == r;
    SeededNumberStamps(es, offset, cutoff, key, x);
    var j :| 0 <= j < |es| && NumberStamp(es, j, key, offset, cutoff) && x == es[j].at + offset;
    assert j > m;
  }

  // Merging a replay into what the process recorded

  /** How many failures the replay counts. */
  function Replayable(es: seq<Replay>, offset: real, cutoff: real): nat {
    if es == [] then 0
    else
      var e := es[|es| - 1];
      Replayable(es[..|es| - 1], offset, cutoff) + if e.at + offset > cutoff then e.failures else 0
  }

  /** It counts what the replay builds: for one route's calls, its whole window. */
  lemma {:induction false} ReplayableCounts(es: seq<Replay>, offset: real, cutoff: real, route: string)
    requires route != "" && forall i | 0 <= i < |es| :: es[i].route == route
    ensures Replayable(es, offset, cutoff) == |Get(Seeded(es, offset, cutoff).routes, route)|
  {
    hide NormalizeDid;
    if es != [] {
      ReplayableCounts(es[..|es| - 1], offset, cutoff, route);
    }
  }

  function MergedKeys(table: Table, seeds: Table, keys: set<string>): Table {
    map k | k in table.Keys + (seeds.Keys * keys) ::
      if k in seeds && k in keys then SortStamps(seeds[k] + Get(table, k)) else table[k]
  }

  function Merged(table: Table, seeds: Table): Table {
    MergedKeys(table, seeds, seeds.Keys)
  }

  /** A merged window is the sorted multiset union of the replayed and the recorded stamps. */
  lemma MergedIsSortedUnion(table: Table, seeds: Table, key: string)
    requires key in seeds || Sorted(Get(table, key))
    ensures Sorted(Get(Merged(table, seeds), key))
    ensures multiset(Get(Merged(table, seeds), key)) == multiset(Get(seeds, key)) + multiset(Get(table, key))
  {
    if key in seeds {
      SortSorts(seeds[key] + Get(table, key));
    }
  }

  /**
   A restart against an unbroken run: a route's window, and a caller's this process did not clear, is the
   sorted union of what a store that lived through the logged calls would hold and what was recorded since.
   */
  lemma RestartEqualsUnbrokenRun(own: Windows, cleared: set<string>, es: seq<Replay>, offset: real, cutoff: real,
                                 key: string)
    requires NotAhead(es, offset, cutoff)
    requires Sorted(Get(own.numbers, key)) && Sorted(Get(own.routes, key))
    ensures var w, live := Seeded(es, offset, cutoff), Live(es, offset);
      var route, caller := Get(Merged(own.routes, w.routes), key), Get(Merged(own.numbers, w.numbers - cleared), key);
      && Sorted(route) && Sorted(caller)
      && multiset(route) == multiset(After(Get(live.routes, key), cutoff)) + multiset(Get(own.routes, key))
      && (key !in cleared ==>
            multiset(caller) == multiset(After(Get(live.numbers, key), cutoff)) + multiset(Get(own.numbers, key)))
      && (key in cleared ==> caller == Get(own.numbers, key))
  {
    hide After, SortStamps, Live, Seeded;
    var w := Seeded(es, offset, cutoff);
    ReplayEqualsLive(es, offset, cutoff, key);
    MergedIsSortedUnion(own.routes, w.routes, key);
    MergedIsSortedUnion(own.numbers, w.numbers - cleared, key);
  }

  /** So a restart leaves what the gate itself left, whenever the log takes each of its calls as it was. */
  lemma RestartEqualsGate(own: Windows, cleared: set<string>, cs: seq<GateCall>, wall: real, offset: real, cutoff: real,
                          key: string)
    requires forall i | 0 <= i < |cs| :: Proper(cs[i]) && TakenAsItWas(cs[i])
    requires NotAhead(SortEvents(GateEvents(cs, wall)), offset, cutoff)
    requires Sorted(Get(own.numbers, key)) && Sorted(Get(own.routes, key))
    ensures var w := Seeded(OldestFirst(Rows(cs), wall), offset, cutoff);
      var live := Live(SortEvents(GateEvents(cs, wall)), offset);
      var route, caller := Get(Merged(own.routes, w.routes), key), Get(Merged(own.numbers, w.numbers - cleared), key);
      && Sorted(route) && Sorted(caller)
      && multiset(route) == multiset(After(Get(live.routes, key), cutoff)) + multiset(Get(own.routes, key))
      && (key !in cleared ==>
            multiset(caller) == multiset(After(Get(live.numbers, key), cutoff)) + multiset(Get(own.numbers, key)))
      && (key in cleared ==> caller == Get(own.numbers, key))
  {
    LogIsTheGates(cs, wall);
    RestartEqualsUnbrokenRun(own, cleared, SortEvents(GateEvents(cs, wall)), offset, cutoff, key);
  }

  /**
   A window the replay merged, then one more failure at `now`: it stays in order exactly when no replayed stamp of the
   key that survived the log lies ahead of the clock.
   */
  lemma RouteOrderAfterReplayIff(
    es: seq<Replay>, offset: real, cutoff: real, route: string, own: seq<real>, now: real)
    requires forall x | x in own :: x <= now
    ensures var seeds := Get(Seeded(es, offset, cutoff).routes, route);
      Sorted(SortStamps(seeds + own) + [now]) <==>
        forall i | 0 <= i < |es| && RouteStamp(es, i, route, offset, cutoff) :: es[i].at + offset <= now
  {
    hide Seeded, SortStamps, RouteStamp;
    var seeds := Get(Seeded(es, offset, cutoff).routes, route);
    forall x ensures x in seeds <==>
      exists i | 0 <= i < |es| :: RouteStamp(es, i, route, offset, cutoff) && x == es[i].at + offset
    {
      SeededRouteStamps(es, offset, cutoff, route, x);
    }
    assert forall i | 0 <= i < |es| && RouteStamp(es, i, route, offset, cutoff) :: es[i].at + offset in seeds;
    MergedOrderIff(seeds, own, now);
  }

  /** The same of a caller's window, for the stamps no verified call cleared. */
  lemma NumberOrderAfterReplayIff(
    es: seq<Replay>, offset: real, cutoff: real, key: string, own: seq<real>, now: real)
    requires forall x | x in own :: x <= now
    ensures var seeds := Get(Seeded(es, offset, cutoff).numbers, key);
      Sorted(SortStamps(seeds + own) + [now]) <==>
        forall i | 0 <= i < |es| && NumberStamp(es, i, key, offset, cutoff) :: es[i].at + offset <= now
  {
    hide Seeded, SortStamps, NumberStamp;
    var seeds := Get(Seeded(es, offset, cutoff).numbers, key);
    forall x ensures x in seeds <==>
      exists i | 0 <= i < |es| :: NumberStamp(es, i, key, offset, cutoff) && x == es[i].at + offset
    {
      SeededNumberStamps(es, offset, cutoff, key, x);
    }
    assert forall i | 0 <= i < |es| && NumberStamp(es, i, key, offset, cutoff) :: es[i].at + offset in seeds;
    MergedOrderIff(seeds, own, now);
  }

  lemma MergedOrderIff(seeds: seq<real>, own: seq<real>, now: real)
    requires forall x | x in own :: x <= now
    ensures Sorted(SortStamps(seeds + own) + [now]) <==> forall x | x in seeds :: x <= now
  {
    hide SortStamps;
    var all := seeds + own;
    var r := SortStamps(all);
    SortSorts(all);
    forall x ensures x in r <==> x in all {
      assert x in r <==> x in multiset(r);
    }
    if forall x | x in seeds :: x <= now {
      assert forall i | 0 <= i < |r| :: r[i] in all;
    } else {
      var x :| x in seeds && x > now;
      assert x in all;
      var i :| 0 <= i < |r| && r[i] == x;
      assert (r + [now])[i] == x && (r + [now])[|r|] == now;
    }
  }

  // The order in which unlocked callers are evicted

  predicate StrLeq(a: string, b: string) {
    a == "" || (b != "" && (a[0] < b[0] || (a[0] == b[0] && StrLeq(a[1..], b[1..]))))
  }

  lemma {:induction false} StrLeqOrder(a: string, b: string, c: string)
    ensures StrLeq(a, b) || StrLeq(b, a)
    ensures StrLeq(a, b) && StrLeq(b, c) ==> StrLeq(a, c)
  {
    if a != "" && b != "" {
      StrLeqOrder(a[1..], b[1..], if c == "" then "" else c[1..]);
    }
  }

  /** (v[-1], k) <= (v'[-1], k') as min() compares them. */
  predicate LeastRecent(t: Table, k: string, k': string)
    requires k in t && t[k] != [] && k' in t && t[k'] != []
  {
    var x, x' := Last(t[k]), Last(t[k']);
    x < x' || (x == x' && StrLeq(k, k'))
  }

  predicate Unlocked(t: Table, k: string) {
    k in t && t[k] != [] && |t[k]| < NUMBER_LIMIT
  }

  /** No entry is left behind empty. */
  predicate Full(t: Table) {
    forall k | k in t :: t[k] != []
  }

  predicate Subtable(t': Table, t: Table) {
    t'.Keys <= t.Keys && forall k | k in t' :: t'[k] == t[k]
  }

  /** The entries whose last stamp lies inside the window. */
  function Recent(t: Table, cutoff: real): Table
    requires Full(t)
  {
    map k | k in t && Last(t[k]) > cutoff :: t[k]
  }

  /** The eviction loop: unlocked entries went, the least recent first, until there was room or none was left. */
  predicate Freed(t: Table, t': Table)
    requires Full(t)
  {
    && Subtable(t', t)
    && (|t'| < CAP || forall k | k in t' :: |t'[k]| >= NUMBER_LIMIT)
    && (forall k | k in t && k !in t' :: Unlocked(t, k) && |t'| >= CAP - 1)
    && (forall k, j | k in t && k !in t' && j in t' && Unlocked(t', j) :: LeastRecent(t, k, j))
  }

  /** _evict_if_needed from t to t'. */
  predicate Evicts(t: Table, t': Table, cutoff: real)
    requires Full(t)
  {
    if |t| < CAP then t' == t else Full(Recent(t, cutoff)) && Freed(Recent(t, cutoff), t')
  }

  lemma EvictsLess(t: Table, t': Table, cutoff: real)
    requires Full(t) && Evicts(t, t', cutoff)
    ensures Full(t') && Subtable(t', t)
    ensures forall k | k in t && k !in t' :: Last(t[k]) <= cutoff || |t[k]| < NUMBER_LIMIT
    ensures |t'| < CAP || forall k | k in t' :: |t'[k]| >= NUMBER_LIMIT
  {
    hide Freed;
    if |t| >= CAP {
      var live := Recent(t, cutoff);
      FreedLess(live, t');
    }
  }

  lemma FreedLess(t: Table, t': Table)
    requires Full(t) && Freed(t, t')
    ensures Full(t') && Subtable(t', t)
    ensures forall k | k in t && k !in t' :: |t[k]| < NUMBER_LIMIT
    ensures |t'| < CAP || forall k | k in t' :: |t'[k]| >= NUMBER_LIMIT
  {
  }

  // The store as a machine over its table, the history beside it

  /** The latest of the stamps. */
  function Latest(s: seq<real>): real
    requires s != []
  {
    if |s| == 1 then s[0]
    else
      var rest := Latest(s[1..]);
      if s[0] > rest then s[0] else rest
  }

  lemma {:induction false} LatestIs(s: seq<real>)
    requires s != []
    ensures forall x | x in s :: x <= Latest(s)
    ensures Latest(s) in s
  {
    if |s| > 1 {
      LatestIs(s[1..]);
      assert s == [s[0]] + s[1..];
    }
  }

  lemma {:induction false} NothingAfter(s: seq<real>, c: real)
    requires forall x | x in s :: x <= c
    ensures After(s, c) == []
  {
    if s != [] {
      assert s[0] in s;
      forall x | x in s[1..] ensures x in s {
      }
      NothingAfter(s[1..], c);
    }
  }

  /**
   table: the windows; log: every failure recorded or replayed since the key was last cleared; ahead: the keys whose
   window took in a stamp ahead of the clock; released: the keys whose window was dropped with stamps still inside the
   trailing window, and the latest stamp lost.
   */
  datatype Store = Store(table: Table, log: Table, clock: real, ahead: set<string>, released: map<string, real>)

  datatype Event =
    | Prune(key: string, now: real)
    | Fail(key: string, stamp: real, evictAt: real, kept: Table, pruneAt: real)
    | Clear(key: string)
    | TakeIn(seeds: Table, now: real, evictAt: real, kept: Table)

  /** Dropping what has left the window, for one key. */
  function Pruned(t: Table, key: string, cutoff: real): Table {
    var entry := After(Get(t, key), cutoff);
    if entry == [] then t - {key} else t[key := entry]
  }

  function Append(t: Table, key: string, stamp: real): Table {
    t[key := Get(t, key) + [stamp]]
  }

  function Max(a: real, b: real): real { if a > b then a else b }

  /** What a dropped window loses: nothing when all of it had left the trailing window. */
  function Lost(bound: Option<real>, entry: seq<real>, cutoff: real): Option<real> {
    if After(entry, cutoff) == [] then bound
    else if bound.None? then Some(Latest(entry))
    else Some(Max(bound.value, Latest(entry)))
  }

  function Bound(released: map<string, real>, key: string): Option<real> {
    if key in released then Some(released[key]) else None
  }

  function Loss(s: Store, kept: Table, cutoff: real, key: string): Option<real> {
    if key in s.table && key !in kept then Lost(Bound(s.released, key), s.table[key], cutoff)
    else Bound(s.released, key)
  }

  function Dropped(s: Store, kept: Table, now: real): Store {
    s.(table := kept, clock := now, ahead := s.ahead * kept.Keys,
       released := map k | k in s.released.Keys + s.table.Keys && Loss(s, kept, now - WINDOW, k).Some? ::
                     Loss(s, kept, now - WINDOW, k).value)
  }

  function PrunedAt(s: Store, key: string, now: real): Store {
    var t := Pruned(s.table, key, now - WINDOW);
    s.(table := t, clock := now, ahead := s.ahead * t.Keys)
  }

  function Appended(s: Store, key: string, stamp: real): Store {
    s.(table := Append(s.table, key, stamp), log := Append(s.log, key, stamp))
  }

  function Cleared(s: Store, key: string): Store {
    s.(table := s.table - {key}, log := s.log - {key}, ahead := s.ahead - {key}, released := s.released - {key})
  }

  predicate AnyAfter(s: seq<real>, now: real) { exists x | x in s :: x > now }

  function TakenIn(s: Store, seeds: Table, now: real): Store {
    s.(table := Merged(s.table, seeds), log := Merged(s.log, seeds), clock := now,
       ahead := s.ahead + set k | k in seeds && AnyAfter(seeds[k], now))
  }

  /** Only the callers' table is capped. */
  predicate Keeps(capped: bool, t: Table, kept: Table, cutoff: real)
    requires Full(t)
  {
    if capped then Evicts(t, kept, cutoff) else kept == t
  }

  /** The clock reads of an event follow one another, and what it evicts is what the code evicts. */
  predicate Enabled(capped: bool, s: Store, e: Event) {
    && Full(s.table)
    && match e
       case Prune(_, now) => s.clock <= now
       case Fail(_, stamp, evictAt, kept, pruneAt) =>
         s.clock <= stamp <= evictAt <= pruneAt && Keeps(capped, s.table, kept, evictAt - WINDOW)
       case Clear(_) => true
       case TakeIn(seeds, now, evictAt, kept) =>
         && s.clock <= now <= evictAt && Full(seeds) && Full(Merged(s.table, seeds))
         && Keeps(capped, Merged(s.table, seeds), kept, evictAt - WINDOW)
  }

  function Step(capped: bool, s: Store, e: Event): Store {
    if !Enabled(capped, s, e) then s
    else
      match e
      case Prune(key, now) => PrunedAt(s, key, now)
      case Fail(key, stamp, evictAt, kept, pruneAt) =>
        Appended(PrunedAt(Dropped(s, kept, evictAt), key, pruneAt), key, stamp)
      case Clear(key) => Cleared(s, key)
      case TakeIn(seeds, now, evictAt, kept) => Dropped(TakenIn(s, seeds, now), kept, evictAt)
  }

  function Begun(now: real): Store { Store(map[], map[], now, {}, map[]) }

  function Exec(capped: bool, begun: real, es: seq<Event>): Store {
    if es == [] then Begun(begun) else Step(capped, Exec(capped, begun, es[..|es| - 1]), es[|es| - 1])
  }

  // How a window reflects the history of everything recorded

  /** A window never counts more than the history. */
  ghost predicate Within(entry: seq<real>, log: seq<real>) {
    forall c: real :: |After(entry, c)| <= |After(log, c)|
  }

  /** A window holds exactly the stamps of the history after the cutoff. */
  predicate Covers(entry: seq<real>, log: seq<real>, cutoff: real) {
    After(entry, cutoff) == After(log, cutoff)
  }

  /** Where a window is exact from: the trailing window's edge, or the latest stamp it lost. */
  function Edge(bound: Option<real>, clock: real): real {
    if bound.Some? then Max(bound.value, clock - WINDOW) else clock - WINDOW
  }

  predicate Ordered(entry: seq<real>, clock: real) {
    Sorted(entry) && (entry != [] ==> Last(entry) <= clock)
  }

  /** One key: in order unless it took in a stamp ahead, and exact from its edge on. */
  ghost predicate KeyOk(entry: seq<real>, log: seq<real>, far: bool, bound: Option<real>, clock: real) {
    && (!far ==> Ordered(entry, clock))
    && Within(entry, log)
    && Covers(entry, log, Edge(bound, clock))
  }

  ghost predicate StoreKeyOk(s: Store, k: string) {
    KeyOk(Get(s.table, k), Get(s.log, k), k in s.ahead, Bound(s.released, k), s.clock)
  }

  ghost predicate StoreOk(s: Store) {
    Full(s.table) && s.ahead <= s.table.Keys && forall k: string :: StoreKeyOk(s, k)
  }

  lemma TimePasses(entry: seq<real>, log: seq<real>, far: bool, bound: Option<real>, clock: real, now: real)
    requires KeyOk(entry, log, far, bound, clock) && clock <= now
    ensures KeyOk(entry, log, far, bound, now)
  {
    hide After, Sorted, Within;
    AfterAfter(entry, Edge(bound, clock), Edge(bound, now));
    AfterAfter(log, Edge(bound, clock), Edge(bound, now));
  }

  lemma PruneKey(entry: seq<real>, log: seq<real>, far: bool, bound: Option<real>, now: real)
    requires KeyOk(entry, log, far, bound, now)
    ensures KeyOk(After(entry, now - WINDOW), log, far && After(entry, now - WINDOW) != [], bound, now)
    ensures !far && entry != [] && After(entry, now - WINDOW) != [] ==> Last(After(entry, now - WINDOW)) == Last(entry)
  {
    hide After, Sorted;
    var cutoff := now - WINDOW;
    var r := After(entry, cutoff);
    forall c: real ensures |After(r, c)| <= |After(log, c)| {
      AfterShrinks(entry, cutoff, c);
      assert |After(entry, c)| <= |After(log, c)|;
    }
    AfterAfter(entry, cutoff, Edge(bound, now));
    if !far {
      AfterKeepsOrder(entry, cutoff);
      if entry != [] { AfterEnds(entry, cutoff); }
    }
    if r == [] { EmptyOrdered(r, now); }
  }

  lemma EmptyOrdered(entry: seq<real>, clock: real)
    requires entry == []
    ensures Ordered(entry, clock)
  {
  }

  lemma AppendKey(entry: seq<real>, log: seq<real>, far: bool, bound: Option<real>, now: real, stamp: real)
    requires KeyOk(entry, log, far, bound, now) && stamp <= now
    requires !far && entry != [] ==> Last(entry) <= stamp
    ensures KeyOk(entry + [stamp], log + [stamp], far, bound, now)
  {
    forall c: real
      ensures After(entry + [stamp], c) == After(entry, c) + After([stamp], c)
      ensures After(log + [stamp], c) == After(log, c) + After([stamp], c)
    {
      AfterConcat(entry, [stamp], c);
      AfterConcat(log, [stamp], c);
    }
    hide After;
    assert forall c: real :: |After(entry, c)| <= |After(log, c)|;
  }

  /** A window dropped: what it loses moves its edge. */
  lemma DropKey(entry: seq<real>, log: seq<real>, far: bool, bound: Option<real>, now: real)
    requires KeyOk(entry, log, far, bound, now)
    ensures KeyOk([], log, false, Lost(bound, entry, now - WINDOW), now)
  {
    hide Sorted;
    var cutoff := now - WINDOW;
    var edge, edge' := Edge(bound, now), Edge(Lost(bound, entry, cutoff), now);
    AfterAfter(entry, edge, edge');
    AfterAfter(log, edge, edge');
    EmptyOrdered([], now);
    if After(entry, cutoff) == [] {
      AfterAfter(entry, cutoff, edge);
    } else {
      LatestIs(entry);
      NothingAfter(entry, edge');
    }
  }

  lemma MergeKey(entry: seq<real>, log: seq<real>, far: bool, bound: Option<real>, now: real, seeds: seq<real>)
    requires KeyOk(entry, log, far, bound, now)
    ensures KeyOk(SortStamps(seeds + entry), SortStamps(seeds + log), far || AnyAfter(seeds, now), bound, now)
  {
    hide SortStamps, After;
    forall c: real
      ensures After(SortStamps(seeds + entry), c) == SortStamps(After(seeds, c) + After(entry, c))
      ensures After(SortStamps(seeds + log), c) == SortStamps(After(seeds, c) + After(log, c))
      ensures |After(SortStamps(seeds + entry), c)| <= |After(SortStamps(seeds + log), c)|
    {
      AfterSort(seeds + entry, c);
      AfterSort(seeds + log, c);
      AfterConcat(seeds, entry, c);
      AfterConcat(seeds, log, c);
      SortLength(After(seeds, c) + After(entry, c));
      SortLength(After(seeds, c) + After(log, c));
      assert |After(entry, c)| <= |After(log, c)|;
    }
    if !far && !AnyAfter(seeds, now) { MergeOrdered(entry, seeds, now); }
  }

  lemma MergeOrdered(entry: seq<real>, seeds: seq<real>, now: real)
    requires Ordered(entry, now) && !AnyAfter(seeds, now)
    ensures Ordered(SortStamps(seeds + entry), now)
  {
    hide SortStamps;
    var all, r := seeds + entry, SortStamps(seeds + entry);
    SortSorts(all);
    if r != [] {
      assert Last(r) in multiset(r);
      assert Last(r) in all;
    }
  }

  lemma BoundAfterDrop(s: Store, kept: Table, now: real, k: string)
    ensures Bound(Dropped(s, kept, now).released, k) == Loss(s, kept, now - WINDOW, k)
  {
    hide Lost;
  }

  lemma DroppedOk(s: Store, kept: Table, now: real)
    requires StoreOk(s) && s.clock <= now && Full(kept) && Subtable(kept, s.table)
    ensures StoreOk(Dropped(s, kept, now))
  {
    hide KeyOk, Lost, Edge;
    var t := Dropped(s, kept, now);
    forall k: string ensures StoreKeyOk(t, k) {
      assert StoreKeyOk(s, k);
      BoundAfterDrop(s, kept, now, k);
      TimePasses(Get(s.table, k), Get(s.log, k), k in s.ahead, Bound(s.released, k), s.clock, now);
      if k in s.table && k !in kept {
        DropKey(Get(s.table, k), Get(s.log, k), k in s.ahead, Bound(s.released, k), now);
      }
    }
  }

  lemma PrunedOk(s: Store, key: string, now: real)
    requires StoreOk(s) && s.clock <= now
    ensures StoreOk(PrunedAt(s, key, now))
    ensures key in s.table && key !in s.ahead && key in PrunedAt(s, key, now).table ==>
      Last(PrunedAt(s, key, now).table[key]) == Last(s.table[key])
  {
    hide KeyOk, Edge, After;
    var t := PrunedAt(s, key, now);
    forall k: string ensures StoreKeyOk(t, k) {
      assert StoreKeyOk(s, k);
      TimePasses(Get(s.table, k), Get(s.log, k), k in s.ahead, Bound(s.released, k), s.clock, now);
      if k == key {
        PruneKey(Get(s.table, k), Get(s.log, k), k in s.ahead, Bound(s.released, k), now);
        assert Get(t.table, k) == After(Get(s.table, k), now - WINDOW);
      } else {
        assert Get(t.table, k) == Get(s.table, k);
      }
    }
    assert StoreKeyOk(s, key);
    TimePasses(Get(s.table, key), Get(s.log, key), key in s.ahead, Bound(s.released, key), s.clock, now);
    PruneKey(Get(s.table, key), Get(s.log, key), key in s.ahead, Bound(s.released, key), now);
  }

  lemma AppendedOk(s: Store, key: string, stamp: real)
    requires StoreOk(s) && stamp <= s.clock && (key in s.table && key !in s.ahead ==> Last(s.table[key]) <= stamp)
    ensures StoreOk(Appended(s, key, stamp))
  {
    hide KeyOk, Edge;
    var t := Appended(s, key, stamp);
    forall k: string ensures StoreKeyOk(t, k) {
      assert StoreKeyOk(s, k);
      if k == key {
        AppendKey(Get(s.table, k), Get(s.log, k), k in s.ahead, Bound(s.released, k), s.clock, stamp);
      }
    }
  }

  lemma ClearedOk(s: Store, key: string)
    requires StoreOk(s)
    ensures StoreOk(Cleared(s, key))
  {
    hide Edge;
    var t := Cleared(s, key);
    forall k: string ensures StoreKeyOk(t, k) {
      assert StoreKeyOk(s, k);
      if k != key { SameKey(s, t, k); } else { EmptyKey(t.clock); }
    }
  }

  lemma EmptyKey(clock: real)
    ensures KeyOk([], [], false, None, clock)
  {
  }

  lemma SameKey(s: Store, t: Store, k: string)
    requires StoreKeyOk(s, k) && Get(t.table, k) == Get(s.table, k) && Get(t.log, k) == Get(s.log, k)
    requires (k in t.ahead <==> k in s.ahead) && Bound(t.released, k) == Bound(s.released, k) && t.clock == s.clock
    ensures StoreKeyOk(t, k)
  {
  }

  lemma TakenInOk(s: Store, seeds: Table, now: real)
    requires StoreOk(s) && s.clock <= now && Full(seeds)
    ensures StoreOk(TakenIn(s, seeds, now))
  {
    hide KeyOk, Edge, SortStamps, AnyAfter;
    var t := TakenIn(s, seeds, now);
    forall k: string ensures StoreKeyOk(t, k) {
      assert StoreKeyOk(s, k);
      TimePasses(Get(s.table, k), Get(s.log, k), k in s.ahead, Bound(s.released, k), s.clock, now);
      if k in seeds {
        MergeKey(Get(s.table, k), Get(s.log, k), k in s.ahead, Bound(s.released, k), now, seeds[k]);
      }
    }
    forall k | k in t.table ensures t.table[k] != [] {
      if k in seeds { SortLength(seeds[k] + Get(s.table, k)); }
    }
  }

  lemma KeepsLess(capped: bool, t: Table, kept: Table, cutoff: real)
    requires Full(t) && Keeps(capped, t, kept, cutoff)
    ensures Full(kept) && Subtable(kept, t)
    ensures forall k | k in t && k !in kept :: Last(t[k]) <= cutoff || |t[k]| < NUMBER_LIMIT
  {
    hide Evicts;
    if capped { EvictsLess(t, kept, cutoff); }
  }

  lemma FailOk(s: Store, key: string, stamp: real, evictAt: real, kept: Table, pruneAt: real)
    requires StoreOk(s) && s.clock <= stamp <= evictAt <= pruneAt && Full(kept) && Subtable(kept, s.table)
    ensures StoreOk(Appended(PrunedAt(Dropped(s, kept, evictAt), key, pruneAt), key, stamp))
  {
    hide Edge, StoreKeyOk, After;
    DroppedOk(s, kept, evictAt);
    var d := Dropped(s, kept, evictAt);
    PrunedOk(d, key, pruneAt);
    var p := PrunedAt(d, key, pruneAt);
    if key in p.table && key !in p.ahead { InOrderNow(s, key); }
    AppendedOk(p, key, stamp);
  }

  lemma InOrderNow(s: Store, k: string)
    requires StoreOk(s) && k in s.table && k !in s.ahead
    ensures Sorted(s.table[k]) && Last(s.table[k]) <= s.clock
  {
    assert StoreKeyOk(s, k);
  }

  lemma StepOk(capped: bool, s: Store, e: Event)
    requires StoreOk(s)
    ensures StoreOk(Step(capped, s, e)) && Step(capped, s, e).clock >= s.clock
  {
    hide StoreOk, Keeps, PrunedAt, Appended, Dropped, TakenIn, Cleared;
    if Enabled(capped, s, e) {
      match e
      case Prune(key, now) => PrunedOk(s, key, now); ClockOf(s, key, now);
      case Fail(key, stamp, evictAt, kept, pruneAt) =>
        KeepsLess(capped, s.table, kept, evictAt - WINDOW);
        FailOk(s, key, stamp, evictAt, kept, pruneAt);
        FailClock(s, key, stamp, evictAt, kept, pruneAt);
      case Clear(key) => ClearedOk(s, key); ClearClock(s, key);
      case TakeIn(seeds, now, evictAt, kept) =>
        TakenInOk(s, seeds, now);
        TakenInParts(s, seeds, now);
        KeepsLess(capped, TakenIn(s, seeds, now).table, kept, evictAt - WINDOW);
        DroppedOk(TakenIn(s, seeds, now), kept, evictAt);
        DropClock(TakenIn(s, seeds, now), kept, evictAt);
    }
  }

  lemma ClockOf(s: Store, key: string, now: real)
    ensures PrunedAt(s, key, now).clock == now
  {
  }

  lemma FailClock(s: Store, key: string, stamp: real, evictAt: real, kept: Table, pruneAt: real)
    ensures Appended(PrunedAt(Dropped(s, kept, evictAt), key, pruneAt), key, stamp).clock == pruneAt
  {
  }

  lemma ClearClock(s: Store, key: string)
    ensures Cleared(s, key).clock == s.clock
  {
  }

  lemma TakenInParts(s: Store, seeds: Table, now: real)
    ensures TakenIn(s, seeds, now).clock == now && TakenIn(s, seeds, now).table == Merged(s.table, seeds)
  {
  }

  lemma DropClock(s: Store, kept: Table, now: real)
    ensures Dropped(s, kept, now).clock == now
  {
  }

  lemma {:induction false} RunOk(capped: bool, begun: real, es: seq<Event>)
    ensures StoreOk(Exec(capped, begun, es))
  {
    hide StoreOk, Step;
    if es == [] {
      BegunOk(begun);
    } else {
      RunOk(capped, begun, es[..|es| - 1]);
      StepOk(capped, Exec(capped, begun, es[..|es| - 1]), es[|es| - 1]);
    }
  }

  lemma BegunOk(now: real)
    ensures StoreOk(Begun(now))
  {
    forall k: string ensures StoreKeyOk(Begun(now), k) {
      EmptyKey(now);
    }
  }

  /** The number of a history's stamps in the trailing window. */
  function Hot(log: Table, key: string, now: real): nat {
    |After(Get(log, key), now - WINDOW)|
  }

  function InWindow(s: Store, key: string, now: real): nat {
    |After(Get(s.table, key), now - WINDOW)|
  }

  /**
   Over every run: no window ever counts more than was recorded and replayed since the last clear; and it counts
   exactly that, unless it was dropped with a stamp that is still inside the trailing window.
   */
  lemma CountIsExact(capped: bool, begun: real, es: seq<Event>, key: string, now: real)
    requires Exec(capped, begun, es).clock <= now
    ensures var s := Exec(capped, begun, es);
      && InWindow(s, key, now) <= Hot(s.log, key, now)
      && (InWindow(s, key, now) == Hot(s.log, key, now) || (key in s.released && s.released[key] > now - WINDOW))
  {
    hide Exec;
    RunOk(capped, begun, es);
    var s := Exec(capped, begun, es);
    assert StoreKeyOk(s, key);
    TimePasses(Get(s.table, key), Get(s.log, key), key in s.ahead, Bound(s.released, key), s.clock, now);
  }

  /** A clear takes the caller's whole window at once, and no one else's. */
  lemma ClearUnlocks(capped: bool, begun: real, es: seq<Event>, key: string, other: string, now: real)
    ensures var s, t := Exec(capped, begun, es), Exec(capped, begun, es + [Clear(key)]);
      InWindow(t, other, now) == if other == key then 0 else InWindow(s, other, now)
  {
    RunOk(capped, begun, es);
    ExecOne(capped, begun, es, Clear(key));
    OkIsFull(Exec(capped, begun, es));
    hide Exec, StoreOk;
  }

  /** A table that is not capped never loses anything: its windows are exact at every moment. */
  lemma {:induction false} UncappedLosesNothing(begun: real, es: seq<Event>)
    ensures Exec(false, begun, es).released == map[]
  {
    if es != [] {
      var s := Exec(false, begun, es[..|es| - 1]);
      UncappedLosesNothing(begun, es[..|es| - 1]);
    }
  }

  // Locks

  predicate Locked(entry: seq<real>, cutoff: real) { |After(entry, cutoff)| >= NUMBER_LIMIT }

  lemma AfterMonotone(s: seq<real>, early: real, late: real)
    requires early <= late
    ensures |After(s, late)| <= |After(s, early)|
  {
    AfterAfter(s, early, late);
  }

  /** No completed call of the caller was logged at or after the moment call i was refused. */
  predicate NotCompletedSince(calls: seq<LoggedCall>, i: nat, key: string, wall: real)
    requires i < |calls| && calls[i].startedAt.Some?
  {
    forall j | 0 <= j < |calls| && CompletedBefore(calls[j], key, wall) ::
      calls[j].startedAt.value < RefusedAt(calls[i])
  }

  /** A caller refused five times inside the window is locked after the restart, whatever else log and memory hold. */
  lemma RefusedIsLockedAgain(own: Table, cleared: set<string>, kept: Table, calls: seq<LoggedCall>, i: nat, key: string,
                             wall: real, offset: real, cutoff: real, late: real)
    requires i < |calls| && RefusedInside(calls[i], key, wall, offset, cutoff) && RefusedAt(calls[i]) + offset > late
    requires NotCompletedSince(calls, i, key, wall) && key !in cleared
    requires var merged := Merged(own, Seeded(OldestFirst(calls, wall), offset, cutoff).numbers - cleared);
      Full(merged) && Evicts(merged, kept, late)
    ensures Locked(Get(kept, key), late)
  {
    hide Seeded, OldestFirst, RefusedInside, Evicts, After, SortStamps;
    var seeds := Seeded(OldestFirst(calls, wall), offset, cutoff).numbers - cleared;
    var merged, all := Merged(own, seeds), Get(seeds, key) + Get(own, key);
    RefusedCallCounts(calls, i, key, wall, offset, cutoff, late);
    AfterNone(late);
    AfterConcat(Get(seeds, key), Get(own, key), late);
    AfterSort(all, late);
    SortLength(After(all, late));
    SortSorts(all);
    SortLength(all);
    EvictsLess(merged, kept, late);
    AfterEnds(merged[key], late);
  }

  lemma AfterNone(cutoff: real)
    ensures After([], cutoff) == []
  {
  }

  /** Nothing the cap drops was locked, unless the caller's window took in a stamp ahead of the clock. */
  lemma LockedIsKept(s: Store, kept: Table, now: real, key: string)
    requires StoreOk(s) && Keeps(true, s.table, kept, now - WINDOW)
    requires key !in s.ahead && Locked(Get(s.table, key), now - WINDOW)
    ensures key in kept && kept[key] == s.table[key]
  {
    hide After, Evicts;
    KeepsLess(true, s.table, kept, now - WINDOW);
    if key in s.table && key !in kept {
      InOrderNow(s, key);
      AfterEnds(s.table[key], now - WINDOW);
    }
  }

  /** Locked beyond the cutoff, and the last stamp beyond it too: no eviction up to the cutoff takes such a window. */
  predicate Held(entry: seq<real>, cutoff: real) {
    entry != [] && Last(entry) > cutoff && Locked(entry, cutoff)
  }

  lemma HeldPruned(entry: seq<real>, early: real, cutoff: real)
    requires Held(entry, cutoff) && early <= cutoff
    ensures Held(After(entry, early), cutoff)
  {
    AfterAfter(entry, early, cutoff);
    var init := entry[..|entry| - 1];
    assert entry == init + [Last(entry)];
    AfterConcat(init, [Last(entry)], early);
    AfterOne(Last(entry), early);
  }

  lemma HeldAppended(entry: seq<real>, stamp: real, cutoff: real)
    requires Held(entry, cutoff) && stamp > cutoff
    ensures Held(entry + [stamp], cutoff)
  {
    AfterConcat(entry, [stamp], cutoff);
  }

  lemma HeldMerged(entry: seq<real>, seeds: seq<real>, cutoff: real)
    requires Held(entry, cutoff)
    ensures Held(SortStamps(seeds + entry), cutoff)
  {
    hide SortStamps, After;
    var all, r := seeds + entry, SortStamps(seeds + entry);
    SortSorts(all);
    SortLength(all);
    AfterSort(all, cutoff);
    AfterConcat(seeds, entry, cutoff);
    SortLength(After(all, cutoff));
    assert all[|all| - 1] == Last(entry);
    assert Last(entry) in multiset(r);
    var i :| 0 <= i < |r| && r[i] == Last(entry);
  }

  lemma HeldIsKept(capped: bool, t: Table, kept: Table, early: real, cutoff: real, key: string)
    requires Full(t) && Keeps(capped, t, kept, early) && early <= cutoff && Held(Get(t, key), cutoff)
    ensures Get(kept, key) == Get(t, key)
  {
    hide Keeps, After;
    KeepsLess(capped, t, kept, early);
  }

  /** One event, the caller not cleared, up to the cutoff. */
  lemma HeldStep(capped: bool, s: Store, e: Event, key: string, cutoff: real)
    requires StoreOk(s) && Held(Get(s.table, key), cutoff) && cutoff < s.clock
    requires e != Clear(key) && Step(capped, s, e).clock - WINDOW <= cutoff
    ensures Held(Get(Step(capped, s, e).table, key), cutoff)
  {
    hide Held, Keeps, After, SortStamps, Lost, StoreOk;
    if Enabled(capped, s, e) {
      match e
      case Prune(k, now) =>
        HeldPruned(Get(s.table, key), now - WINDOW, cutoff);
        PrunedGet(s.table, k, now - WINDOW, key);
      case Fail(k, stamp, evictAt, kept, pruneAt) =>
        FailClock(s, k, stamp, evictAt, kept, pruneAt);
        HeldIsKept(capped, s.table, kept, evictAt - WINDOW, cutoff, key);
        HeldFail(kept, k, pruneAt, stamp, key, cutoff);
      case Clear(k) =>
      case TakeIn(seeds, now, evictAt, kept) =>
        if key in seeds { HeldMerged(Get(s.table, key), seeds[key], cutoff); }
        HeldIsKept(capped, Merged(s.table, seeds), kept, evictAt - WINDOW, cutoff, key);
    }
  }

  lemma PrunedGet(t: Table, k: string, cutoff: real, key: string)
    ensures Get(Pruned(t, k, cutoff), key) == if k == key then After(Get(t, key), cutoff) else Get(t, key)
  {
    hide After;
  }

  lemma HeldFail(kept: Table, k: string, pruneAt: real, stamp: real, key: string, cutoff: real)
    requires Held(Get(kept, key), cutoff) && stamp > cutoff && pruneAt - WINDOW <= cutoff
    ensures Held(Get(Append(Pruned(kept, k, pruneAt - WINDOW), k, stamp), key), cutoff)
  {
    hide Held, After, Pruned;
    PrunedGet(kept, k, pruneAt - WINDOW, key);
    HeldPruned(Get(kept, key), pruneAt - WINDOW, cutoff);
    HeldAppended(Get(Pruned(kept, k, pruneAt - WINDOW), key), stamp, cutoff);
  }

  predicate NotCleared(es: seq<Event>, key: string) {
    forall i | 0 <= i < |es| :: es[i] != Clear(key)
  }

  lemma {:induction false} HeldRun(capped: bool, begun: real, es: seq<Event>, more: seq<Event>, key: string,
                                   cutoff: real)
    requires Held(Get(Exec(capped, begun, es).table, key), cutoff) && cutoff < Exec(capped, begun, es).clock
    requires NotCleared(more, key) && Exec(capped, begun, es + more).clock - WINDOW <= cutoff
    ensures Held(Get(Exec(capped, begun, es + more).table, key), cutoff)
    ensures Exec(capped, begun, es).clock <= Exec(capped, begun, es + more).clock
    decreases |more|
  {
    hide Held, Step, StoreOk;
    if more == [] {
      assert es + more == es;
    } else {
      var init, e := more[..|more| - 1], more[|more| - 1];
      ExecOne(capped, begun, es + init, e);
      assert (es + init) + [e] == es + more;
      RunOk(capped, begun, es + init);
      StepOk(capped, Exec(capped, begun, es + init), e);
      hide Exec;
      HeldRun(capped, begun, es, init, key, cutoff);
      HeldStep(capped, Exec(capped, begun, es + init), e, key, cutoff);
    }
  }

  lemma ExecOne(capped: bool, begun: real, es: seq<Event>, e: Event)
    ensures Exec(capped, begun, es + [e]) == Step(capped, Exec(capped, begun, es), e)
  {
    hide Step;
    assert (es + [e])[..|es + [e]| - 1] == es;
  }

  /** Up to where a window can come to end: its last stamp, or the clock when that stamp lies ahead. */
  function Reach(entry: seq<real>, clock: real): real
    requires entry != []
  {
    Max(clock - WINDOW, if Last(entry) < clock then Last(entry) else clock)
  }

  /** In some continuation without a clear the caller is still locked by what it had, and the store has dropped it. */
  ghost predicate CanLose(begun: real, es: seq<Event>, key: string) {
    exists more: seq<Event> :: Loses(begun, es, more, key)
  }

  predicate Loses(begun: real, es: seq<Event>, more: seq<Event>, key: string) {
    var s, t := Exec(true, begun, es), Exec(true, begun, es + more);
    && NotCleared(more, key)
    && Locked(Get(s.table, key), t.clock - WINDOW) && !Locked(Get(t.table, key), t.clock - WINDOW)
  }

  /** Fewer than five stamps beyond that: the lock holds until the window cools, whatever runs. */
  lemma LockHolds(begun: real, es: seq<Event>, more: seq<Event>, key: string)
    requires var s := Exec(true, begun, es);
      Get(s.table, key) == [] || !Locked(Get(s.table, key), Reach(Get(s.table, key), s.clock))
    ensures !Loses(begun, es, more, key)
  {
    hide Exec, After;
    var s, t := Exec(true, begun, es), Exec(true, begun, es + more);
    var cutoff, entry := t.clock - WINDOW, Get(s.table, key);
    if NotCleared(more, key) && Locked(entry, cutoff) {
      ClockGrows(begun, es, more);
      assert entry != [];
      if Reach(entry, s.clock) <= cutoff { AfterMonotone(entry, Reach(entry, s.clock), cutoff); }
      HeldRun(true, begun, es, more, key, cutoff);
    }
  }

  lemma {:induction false} ClockGrows(begun: real, es: seq<Event>, more: seq<Event>)
    ensures Exec(true, begun, es).clock <= Exec(true, begun, es + more).clock
    decreases |more|
  {
    hide Exec, Step, StoreOk;
    if more == [] {
      assert es + more == es;
    } else {
      var init, e := more[..|more| - 1], more[|more| - 1];
      ExecOne(true, begun, es + init, e);
      assert (es + init) + [e] == es + more;
      ClockGrows(begun, es, init);
      RunOk(true, begun, es + init);
      StepOk(true, Exec(true, begun, es + init), e);
    }
  }

  // What the eviction can come to, for every table

  lemma {:induction false} LeastExists(t: Table, ks: set<string>) returns (v: string)
    requires ks != {} && forall k | k in ks :: Unlocked(t, k)
    ensures v in ks && forall k | k in ks && Unlocked(t, k) && Unlocked(t, v) :: LeastRecent(t, v, k)
    decreases |ks|
  {
    var k :| k in ks;
    StrLeqOrder(k, k, k);
    if ks == {k} {
      v := k;
    } else {
      var w := LeastExists(t, ks - {k});
      v := if LeastRecent(t, w, k) then w else k;
      forall j | j in ks ensures LeastRecent(t, v, j) {
        LeastRecentOrder(t, v, w, j);
        LeastRecentOrder(t, w, k, k);
      }
    }
  }

  lemma LeastRecentOrder(t: Table, a: string, b: string, c: string)
    requires Unlocked(t, a) && Unlocked(t, b) && Unlocked(t, c)
    ensures LeastRecent(t, a, b) || LeastRecent(t, b, a)
    ensures LeastRecent(t, a, b) && LeastRecent(t, b, c) ==> LeastRecent(t, a, c)
  {
    StrLeqOrder(a, b, c);
  }

  /** Whatever the table, the eviction loop has somewhere to end. */
  lemma {:induction false} FreedExists(t: Table) returns (kept: Table)
    requires Full(t)
    ensures Freed(t, kept) && (|t| >= CAP - 1 ==> |kept| >= CAP - 1)
    decreases |t|
  {
    var unlocked := set k | k in t && Unlocked(t, k);
    kept := t;
    if unlocked == {} {
      assert forall k | k in t :: k !in unlocked;
    } else if |t| >= CAP {
      var v := LeastExists(t, unlocked);
      assert |t - {v}| == |t| - 1 by { assert (t - {v}).Keys == t.Keys - {v}; }
      kept := FreedExists(t - {v});
      FreedMore(t, v, kept);
    }
  }

  lemma FreedMore(t: Table, v: string, kept: Table)
    requires Full(t) && Unlocked(t, v) && Freed(t - {v}, kept) && |kept| >= CAP - 1
    requires forall k | k in t && Unlocked(t, k) :: LeastRecent(t, v, k)
    ensures Freed(t, kept)
  {
    hide StrLeq;
    forall k, j | k in t && k !in kept && j in kept && Unlocked(kept, j) ensures LeastRecent(t, k, j) {
      assert Unlocked(t, j);
      if k != v { assert LeastRecent(t - {v}, k, j); }
    }
  }

  lemma EvictionExists(t: Table, cutoff: real) returns (kept: Table)
    requires Full(t)
    ensures Evicts(t, kept, cutoff)
  {
    hide Freed;
    kept := t;
    if |t| >= CAP {
      kept := FreedExists(Recent(t, cutoff));
    }
  }

  // A run that loses a lock

  function Ones(n: nat): string { seq(n, _ => '1') }

  lemma {:induction false} LengthBound(ks: set<string>) returns (n: nat)
    ensures forall k | k in ks :: |k| <= n
    decreases |ks|
  {
    n := 0;
    if ks != {} {
      var k :| k in ks;
      n := LengthBound(ks - {k});
      if |k| > n { n := |k|; }
    }
  }

  /** A caller the table does not hold. */
  lemma Stranger(t: Table, key: string) returns (k: string)
    ensures k !in t && k != key
  {
    var n := LengthBound(t.Keys + {key});
    k := Ones(n + 1);
    assert k !in t.Keys + {key};
  }

  /** A stranger's failure while there is room: one more window, the others as they were. */
  lemma RoomyFail(begun: real, es: seq<Event>, k: string)
    requires var s := Exec(true, begun, es); StoreOk(s) && |s.table| < CAP && k !in s.table
    ensures var s := Exec(true, begun, es);
      var t := Exec(true, begun, es + [Fail(k, s.clock, s.clock, s.table, s.clock)]);
      t.clock == s.clock && t.table == s.table[k := [s.clock]] && |t.table| == |s.table| + 1
  {
    hide Exec, Step;
    ExecOne(true, begun, es, Fail(k, Exec(true, begun, es).clock, Exec(true, begun, es).clock,
                                  Exec(true, begun, es).table, Exec(true, begun, es).clock));
    RoomyStep(Exec(true, begun, es), k);
  }

  lemma RoomyStep(s: Store, k: string)
    requires Full(s.table) && |s.table| < CAP && k !in s.table
    ensures var t := Step(true, s, Fail(k, s.clock, s.clock, s.table, s.clock));
      t.clock == s.clock && t.table == s.table[k := [s.clock]] && |t.table| == |s.table| + 1
  {
    hide Lost, Pruned, Step;
    var e := Fail(k, s.clock, s.clock, s.table, s.clock);
    FailTable(true, s, e);
    OneMore(s.table, k, s.clock - WINDOW, s.clock);
  }

  lemma OneMore(t: Table, k: string, cutoff: real, stamp: real)
    requires k !in t
    ensures Append(Pruned(t, k, cutoff), k, stamp) == t[k := [stamp]] && |t[k := [stamp]]| == |t| + 1
  {
    assert t - {k} == t;
    assert [] + [stamp] == [stamp];
    assert t[k := [stamp]].Keys == t.Keys + {k};
  }

  lemma {:induction false} Crowd(begun: real, es: seq<Event>, key: string) returns (more: seq<Event>)
    ensures var s, t := Exec(true, begun, es), Exec(true, begun, es + more);
      NotCleared(more, key) && t.clock == s.clock && Get(t.table, key) == Get(s.table, key) && |t.table| >= CAP
    decreases CAP - |Exec(true, begun, es).table|
  {
    hide Exec, StoreOk;
    var s := Exec(true, begun, es);
    more := [];
    assert es + more == es;
    if |s.table| < CAP {
      RunOk(true, begun, es);
      var k := Stranger(s.table, key);
      var one := Fail(k, s.clock, s.clock, s.table, s.clock);
      RoomyFail(begun, es, k);
      var rest := Crowd(begun, es + [one], key);
      more := [one] + rest;
      assert es + more == es + [one] + rest;
    }
  }

  lemma FailGet(s: Store, key: string, stamp: real, evictAt: real, kept: Table, pruneAt: real, k: string)
    requires Full(s.table) && s.clock <= stamp <= evictAt <= pruneAt && Evicts(s.table, kept, evictAt - WINDOW)
    ensures var t := Step(true, s, Fail(key, stamp, evictAt, kept, pruneAt));
      && t.clock == pruneAt
      && Get(t.table, k) == if k == key then After(Get(kept, key), pruneAt - WINDOW) + [stamp] else Get(kept, k)
  {
    hide Evicts, After, Lost, Pruned;
    PrunedGet(kept, key, pruneAt - WINDOW, k);
    PrunedGet(kept, key, pruneAt - WINDOW, key);
  }

  /** With the table full and the last stamp out of the window, a stranger's failure drops the caller, locked or not. */
  lemma FullTableDrops(begun: real, es: seq<Event>, key: string, now: real) returns (e: Event)
    requires var s := Exec(true, begun, es);
      && |s.table| >= CAP && s.clock <= now
      && Get(s.table, key) != [] && Last(Get(s.table, key)) <= now - WINDOW
    ensures var t := Exec(true, begun, es + [e]);
      t.clock == now && Get(t.table, key) == [] && e != Clear(key)
  {
    hide Exec, After, Evicts, Step;
    var s := Exec(true, begun, es);
    RunOk(true, begun, es);
    var kept := EvictionExists(s.table, now - WINDOW);
    ExpiredGoes(s.table, kept, now - WINDOW, key);
    var k := Stranger(s.table, key);
    e := Fail(k, now, now, kept, now);
    ExecOne(true, begun, es, e);
    FailGet(s, k, now, now, kept, now, key);
  }

  lemma ExpiredGoes(t: Table, kept: Table, cutoff: real, key: string)
    requires Full(t) && Evicts(t, kept, cutoff) && |t| >= CAP
    requires Get(t, key) != [] && Last(Get(t, key)) <= cutoff
    ensures key !in kept
  {
    hide Freed;
    FreedLess(Recent(t, cutoff), kept);
  }

  /** From a window that ends where it reaches: wait until that stamp leaves the trailing window, the table full. */
  lemma LosingRun(begun: real, es: seq<Event>, key: string) returns (more: seq<Event>)
    requires var s := Exec(true, begun, es); var entry := Get(s.table, key);
      entry != [] && Last(entry) <= s.clock && Locked(entry, Reach(entry, s.clock))
    ensures Loses(begun, es, more, key)
    ensures var s := Exec(true, begun, es);
      Exec(true, begun, es + more).clock == Reach(Get(s.table, key), s.clock) + WINDOW
  {
    hide Exec, After;
    var s := Exec(true, begun, es);
    var entry := Get(s.table, key);
    var crowd := Crowd(begun, es, key);
    var now := Reach(entry, s.clock) + WINDOW;
    var e := FullTableDrops(begun, es + crowd, key, now);
    more := crowd + [e];
    assert es + more == es + crowd + [e];
  }

  /** A window that ends ahead of the clock: one present failure first. */
  lemma PresentFailure(begun: real, es: seq<Event>, key: string) returns (e: Event)
    requires var s := Exec(true, begun, es); var entry := Get(s.table, key);
      entry != [] && Last(entry) >= s.clock && Locked(entry, s.clock)
    ensures var s, t := Exec(true, begun, es), Exec(true, begun, es + [e]);
      && e != Clear(key) && t.clock == s.clock
      && Get(t.table, key) == After(Get(s.table, key), s.clock - WINDOW) + [s.clock]
  {
    hide Exec, After, Evicts, Step;
    var s := Exec(true, begun, es);
    RunOk(true, begun, es);
    var kept := EvictionExists(s.table, s.clock - WINDOW);
    EvictsLess(s.table, kept, s.clock - WINDOW);
    assert key in kept;
    e := Fail(key, s.clock, s.clock, kept, s.clock);
    ExecOne(true, begun, es, e);
    FailGet(s, key, s.clock, s.clock, kept, s.clock, key);
  }

  lemma AheadReach(entry: seq<real>, clock: real)
    requires Locked(entry, clock)
    ensures var next := After(entry, clock - WINDOW) + [clock];
      Locked(next, Reach(next, clock)) && Reach(next, clock) == clock
  {
    var rest := After(entry, clock - WINDOW);
    AfterConcat(rest, [clock], clock);
    AfterAfter(entry, clock - WINDOW, clock);
  }

  /** What the caller loses later it lost of the window before the failure too. */
  lemma LosesBefore(begun: real, es: seq<Event>, e: Event, more: seq<Event>, key: string)
    requires e != Clear(key) && Loses(begun, es + [e], more, key)
    requires var s, t := Exec(true, begun, es), Exec(true, begun, es + [e]);
      t.clock == s.clock && Get(t.table, key) == After(Get(s.table, key), s.clock - WINDOW) + [s.clock]
    requires Exec(true, begun, es + [e] + more).clock - WINDOW >= Exec(true, begun, es).clock
    ensures Loses(begun, es, [e] + more, key)
  {
    hide Exec, After;
    var s, t := Exec(true, begun, es), Exec(true, begun, es + [e]);
    var entry, cutoff := Get(s.table, key), Exec(true, begun, es + [e] + more).clock - WINDOW;
    assert es + ([e] + more) == es + [e] + more;
    AfterConcat(After(entry, s.clock - WINDOW), [s.clock], cutoff);
    AfterAfter(entry, s.clock - WINDOW, cutoff);
    AfterOne(s.clock, cutoff);
  }

  /**
   Over every run: a locked caller that is never cleared can still be lost, before its window cools, exactly when five
   of its stamps lie beyond its last one, or beyond the clock when that last one lies ahead. Stamps in order never do.
   */
  lemma LockCanBeLostIff(begun: real, es: seq<Event>, key: string)
    ensures var s := Exec(true, begun, es); var entry := Get(s.table, key);
      && (CanLose(begun, es, key) <==> entry != [] && Locked(entry, Reach(entry, s.clock)))
      && (key !in s.ahead ==> !CanLose(begun, es, key))
  {
    hide Exec, Loses, After;
    var s := Exec(true, begun, es);
    var entry := Get(s.table, key);
    if entry != [] && Locked(entry, Reach(entry, s.clock)) {
      LoseIt(begun, es, key);
    } else {
      forall more: seq<Event> ensures !Loses(begun, es, more, key) {
        LockHolds(begun, es, more, key);
      }
    }
    if key !in s.ahead && entry != [] {
      RunOk(true, begun, es);
      InOrderNow(s, key);
      AfterEnds(entry, Reach(entry, s.clock));
    }
  }

  lemma LoseIt(begun: real, es: seq<Event>, key: string)
    requires var s := Exec(true, begun, es); var entry := Get(s.table, key);
      entry != [] && Locked(entry, Reach(entry, s.clock))
    ensures CanLose(begun, es, key)
  {
    hide Exec, After, Loses;
    var s := Exec(true, begun, es);
    var entry := Get(s.table, key);
    if Last(entry) <= s.clock {
      var more := LosingRun(begun, es, key);
    } else {
      var e := PresentFailure(begun, es, key);
      AheadReach(entry, s.clock);
      var more := LosingRun(begun, es + [e], key);
      LosesBefore(begun, es, e, more, key);
    }
  }

  lemma {:induction false} RepeatAfter(t: real, n: nat, cutoff: real)
    requires t > cutoff
    ensures After(Repeat(t, n), cutoff) == Repeat(t, n)
  {
    if n > 0 {
      assert Repeat(t, n) == Repeat(t, n - 1) + [t];
      RepeatAfter(t, n - 1, cutoff);
      AfterConcat(Repeat(t, n - 1), [t], cutoff);
      AfterOne(t, cutoff);
    }
  }

  lemma SeededOne(e: Replay, offset: real, cutoff: real)
    requires NormalizeDid(e.number) != "" && e.failures >= 1 && !e.verified && e.at + offset > cutoff
    ensures Seeded([e], offset, cutoff).numbers == map[NormalizeDid(e.number) := Repeat(e.at + offset, e.failures)]
  {
    hide NormalizeDid, Repeat;
    assert [e][..|[e]| - 1] == [];
    var empty := Windows(map[], map[]);
    assert Seeded([], offset, cutoff) == empty;
    assert Seeded([e], offset, cutoff) == SeedStep(empty, e, e.at + offset, cutoff);
    assert [] + Repeat(e.at + offset, e.failures) == Repeat(e.at + offset, e.failures);
  }

  /** A first replay, of one caller. */
  lemma FirstTakeIn(begun: real, key: string, stamps: seq<real>, now: real)
    requires stamps != [] && now >= begun && AnyAfter(stamps, now)
    ensures var seeds := map[key := stamps];
      var s := Exec(true, begun, [TakeIn(seeds, now, now, Merged(map[], seeds))]);
      s.clock == now && key in s.ahead && Get(s.table, key) == SortStamps(stamps)
  {
    hide SortStamps, Step, Merged, AnyAfter;
    var seeds := map[key := stamps];
    var merged := Merged(map[], seeds);
    var event := TakeIn(seeds, now, now, merged);
    MergedOne(key, stamps);
    SortLength(stamps);
    ExecOne(true, begun, [], event);
    assert [] + [event] == [event];
    TakeInStep(Begun(begun), seeds, now, merged, key);
  }

  lemma MergedOne(key: string, stamps: seq<real>)
    ensures Merged(map[], map[key := stamps]) == map[key := SortStamps(stamps)]
    ensures |Merged(map[], map[key := stamps])| == 1
  {
    hide SortStamps;
    assert stamps + [] == stamps;
    assert Merged(map[], map[key := stamps]).Keys == {key};
  }

  lemma TakeInStep(s: Store, seeds: Table, now: real, merged: Table, key: string)
    requires s.table == map[] && s.clock <= now && Full(seeds) && merged == Merged(s.table, seeds) && Full(merged)
    requires |merged| < CAP && key in seeds && key in merged && AnyAfter(seeds[key], now)
    ensures var t := Step(true, s, TakeIn(seeds, now, now, merged));
      t.clock == now && key in t.ahead && t.table == merged
  {
    hide Lost, Merged, AnyAfter;
  }

  /** Five failures logged ahead of the clock lock their caller, and a run loses that lock. */
  lemma AheadCallLosesLock(begun: real, e: Replay, offset: real, now: real)
    requires NormalizeDid(e.number) != "" && e.failures >= NUMBER_LIMIT && !e.verified && e.at + offset > now >= begun
    ensures var seeds := Seeded([e], offset, now - WINDOW).numbers;
      CanLose(begun, [TakeIn(seeds, now, now, Merged(map[], seeds))], NormalizeDid(e.number))
  {
    hide Seeded, Merged, Exec, NormalizeDid, CanLose;
    var seeds, key, t := Seeded([e], offset, now - WINDOW).numbers, NormalizeDid(e.number), e.at + offset;
    SeededOne(e, offset, now - WINDOW);
    RepeatHolds([], t, e.failures, t);
    assert [] + Repeat(t, e.failures) == Repeat(t, e.failures);
    FirstTakeIn(begun, key, Repeat(t, e.failures), now);
    var es := [TakeIn(seeds, now, now, Merged(map[], seeds))];
    AheadLocked(t, e.failures, now);
    LockCanBeLostIff(begun, es, key);
  }

  lemma AheadLocked(t: real, n: nat, now: real)
    requires t > now && n >= NUMBER_LIMIT
    ensures var entry := SortStamps(Repeat(t, n)); entry != [] && Locked(entry, Reach(entry, now))
  {
    hide SortStamps, After;
    var all := Repeat(t, n);
    var entry := SortStamps(all);
    SortSorts(all);
    SortLength(all);
    assert Last(entry) in multiset(entry);
    assert Last(entry) in all;
    AfterSort(all, now);
    RepeatAfter(t, n, now);
  }

  /** A window can be out of order only after a replay brought that key a stamp ahead of the clock. */
  lemma {:induction false} AheadOnlyByReplay(capped: bool, begun: real, es: seq<Event>, key: string)
    requires key in Exec(capped, begun, es).ahead
    ensures exists i | 0 <= i < |es| :: BringsAhead(es[i], key)
  {
    hide BringsAhead, Enabled, Pruned, Append, Merged, Lost;
    if es != [] {
      var init, e := es[..|es| - 1], es[|es| - 1];
      var s := Exec(capped, begun, init);
      AheadStep(capped, s, e, key);
      if key in s.ahead {
        AheadOnlyByReplay(capped, begun, init, key);
        var i :| 0 <= i < |init| && BringsAhead(init[i], key);
        assert es[i] == init[i];
      }
    }
  }

  predicate BringsAhead(e: Event, key: string) { e.TakeIn? && key in e.seeds && AnyAfter(e.seeds[key], e.now) }

  lemma AheadStep(capped: bool, s: Store, e: Event, key: string)
    requires key in Step(capped, s, e).ahead
    ensures key in s.ahead || BringsAhead(e, key)
  {
    hide Enabled, Pruned, Append, Merged, Lost, AnyAfter;
  }

  /** The table passes the cap only when everyone else in it holds five stamps or more. */
  lemma CapIsKept(s: Store, e: Event)
    requires Enabled(true, s, e) && e.Fail?
    ensures var t := Step(true, s, e).table;
      |t| <= CAP || forall k | k in t && k != e.key :: |t[k]| >= NUMBER_LIMIT
  {
    hide Lost, Evicts, After;
    EvictsLess(s.table, e.kept, e.evictAt - WINDOW);
    RoomForOne(e.kept, e.pruneAt - WINDOW, e.key, e.stamp);
  }

  lemma SubsetSize(a: set<string>, b: set<string>)
    requires a <= b
    ensures |a| <= |b|
  {
    assert b == a + (b - a);
  }

  lemma RoomForOne(kept: Table, cutoff: real, key: string, stamp: real)
    requires |kept| < CAP || forall k | k in kept :: |kept[k]| >= NUMBER_LIMIT
    ensures var grown := Append(Pruned(kept, key, cutoff), key, stamp);
      |grown| <= CAP || forall k | k in grown && k != key :: |grown[k]| >= NUMBER_LIMIT
  {
    var grown := Append(Pruned(kept, key, cutoff), key, stamp);
    SubsetSize(grown.Keys, kept.Keys + {key});
  }

  lemma {:induction false} SeededFull(es: seq<Replay>, offset: real, cutoff: real)
    ensures Full(Seeded(es, offset, cutoff).numbers) && Full(Seeded(es, offset, cutoff).routes)
  {
    hide NormalizeDid;
    if es != [] {
      SeededFull(es[..|es| - 1], offset, cutoff);
    }
  }

  lemma MergedFull(t: Table, seeds: Table)
    requires Full(t) && Full(seeds)
    ensures Full(Merged(t, seeds))
  {
    forall k | k in Merged(t, seeds) ensures Merged(t, seeds)[k] != [] {
      if k in seeds { SortLength(seeds[k] + Get(t, k)); }
    }
  }

  // The code

  /** The PIN gate's store; `clock` is what the monotonic clock last read. */
  class PinFailureStore {
    var clock: real
    var numbers: Table
    var routes: Table
    const startedWall: real
    var seeded: bool
    var cleared: set<string>

    // The runs the two tables have been through since the store began.
    ghost const begun: real
    ghost var callerRun: seq<Event>
    ghost var routeRun: seq<Event>

    ghost function Callers(): Store
      reads this
    {
      Exec(true, begun, callerRun)
    }

    ghost function Routes(): Store
      reads this
    {
      Exec(false, begun, routeRun)
    }

    ghost predicate Valid()
      reads this
    {
      && Callers().table == numbers && Callers().clock <= clock
      && Routes().table == routes && Routes().clock <= clock
    }

    constructor (wall: real, now: real)
      ensures Valid() && clock == now == begun && startedWall == wall && !seeded && cleared == {}
      ensures callerRun == [] && routeRun == []
    {
      clock, startedWall, seeded, cleared := now, wall, false, {};
      numbers, routes, begun, callerRun, routeRun := map[], map[], now, [], [];
    }

    /** The monotonic clock may have moved on by the time it is read. */
    method Now() returns (t: real)
      modifies this`clock
      ensures old(clock) <= clock == t
    {
      t := *;
      if t < clock {
        t := clock;
      }
      clock := t;
    }

    /** _prune: the key's stamps still inside the window, and the table with no more of it. */
    method Prune(table: Table, key: string) returns (pruned: Table, entry: seq<real>)
      modifies this`clock
      ensures old(clock) <= clock && pruned == Pruned(table, key, clock - WINDOW)
      ensures entry == After(Get(table, key), clock - WINDOW) == Get(pruned, key)
    {
      hide After;
      var now := Now();
      entry := After(Get(table, key), now - WINDOW);
      pruned := if entry == [] then table - {key} else table[key := entry];
    }

    /**
     A caller is refused only on five failures of its own in the trailing window; and always then, unless its window
     was dropped with a stamp that is still inside it.
     */
    method NumberLocked(number: string) returns (locked: bool)
      requires Valid()
      modifies this`clock, this`numbers, this`callerRun
      ensures Valid() && old(clock) <= clock && old(callerRun) <= callerRun
      ensures Callers().log == old(Callers().log) && Callers().released == old(Callers().released)
      ensures locked <==>
        NormalizeDid(number) != "" && InWindow(old(Callers()), NormalizeDid(number), clock) >= NUMBER_LIMIT
      ensures locked ==> Hot(Callers().log, NormalizeDid(number), clock) >= NUMBER_LIMIT
      ensures var key := NormalizeDid(number);
        key != "" && (key in Callers().released ==> Callers().released[key] <= clock - WINDOW) ==>
          (locked <==> Hot(Callers().log, key, clock) >= NUMBER_LIMIT)
    {
      hide After, NormalizeDid, Exec;
      var key := NormalizeDid(number);
      if key == "" {
        return false;
      }
      ghost var was := Callers();
      RunOk(true, begun, callerRun);
      var entry;
      numbers, entry := Prune(numbers, key);
      CountIsExact(true, begun, callerRun, key, clock);
      ExecOne(true, begun, callerRun, Event.Prune(key, clock));
      callerRun := callerRun + [Event.Prune(key, clock)];
      return |entry| >= NUMBER_LIMIT;
    }

    /** A route is refused exactly on twenty failures in the trailing window. */
    method RouteLocked(routeId: string) returns (locked: bool)
      requires Valid()
      modifies this`clock, this`routes, this`routeRun
      ensures Valid() && old(clock) <= clock && old(routeRun) <= routeRun && Routes().log == old(Routes().log)
      ensures locked <==> routeId != "" && Hot(Routes().log, routeId, clock) >= ROUTE_LIMIT
    {
      hide After, Exec;
      if routeId == "" {
        return false;
      }
      RunOk(false, begun, routeRun);
      UncappedLosesNothing(begun, routeRun);
      var entry;
      routes, entry := Prune(routes, routeId);
      CountIsExact(false, begun, routeRun, routeId, clock);
      ExecOne(false, begun, routeRun, Event.Prune(routeId, clock));
      routeRun := routeRun + [Event.Prune(routeId, clock)];
      return |entry| >= ROUTE_LIMIT;
    }

    /** min() over the callers below the limit, if there is one. */
    method LeastRecentUnlocked() returns (victim: Option<string>)
      requires Full(numbers)
      ensures victim.None? <==> forall k | k in numbers :: |numbers[k]| >= NUMBER_LIMIT
      ensures victim.Some? ==> Unlocked(numbers, victim.value)
      ensures victim.Some? ==> forall k | Unlocked(numbers, k) :: LeastRecent(numbers, victim.value, k)
    {
      hide StrLeq;
      victim := None;
      var left := numbers.Keys;
      while left != {}
        invariant left <= numbers.Keys
        invariant victim.None? ==> forall k | k in numbers && k !in left :: |numbers[k]| >= NUMBER_LIMIT
        invariant victim.Some? ==> Unlocked(numbers, victim.value)
        invariant victim.Some? ==>
          forall k | Unlocked(numbers, k) && k !in left :: LeastRecent(numbers, victim.value, k)
        decreases left
      {
        var k :| k in left;
        left := left - {k};
        if |numbers[k]| < NUMBER_LIMIT {
          LeastRecentOrder(numbers, k, k, k);
          if victim.None? {
            victim := Some(k);
          } else if !LeastRecent(numbers, victim.value, k) {
            forall j | Unlocked(numbers, j) && LeastRecent(numbers, victim.value, j)
              ensures LeastRecent(numbers, k, j)
            {
              LeastRecentOrder(numbers, k, victim.value, j);
              LeastRecentOrder(numbers, victim.value, k, k);
            }
            victim := Some(k);
          }
        }
      }
    }

    /** Drops the callers whose last stamp has left the window. */
    method DropExpired()
      requires Full(numbers)
      modifies this`clock, this`numbers
      ensures old(clock) <= clock && numbers == Recent(old(numbers), clock - WINDOW)
    {
      var now := Now();
      numbers := map k | k in numbers && Last(numbers[k]) > now - WINDOW :: numbers[k];
    }

    /** Releases unlocked callers, least recently active first, until there is room or none is left. */
    method ReleaseUnlocked()
      requires Full(numbers)
      modifies this`numbers
      ensures Freed(old(numbers), numbers)
    {
      hide LeastRecent;
      ghost var before := numbers;
      while |numbers| >= CAP
        invariant Subtable(numbers, before)
        invariant forall k | k in before && k !in numbers :: Unlocked(before, k) && |numbers| >= CAP - 1
        invariant forall k, j | k in before && k !in numbers && j in numbers && Unlocked(numbers, j) ::
                    LeastRecent(before, k, j)
        decreases |numbers|
      {
        var victim := LeastRecentUnlocked();
        if victim.None? {
          return;
        }
        ghost var wider := numbers;
        numbers := numbers - {victim.value};
        assert numbers.Keys == wider.Keys - {victim.value};
        OneReleased(before, wider, victim.value);
      }
    }

    /**
     Makes room for one more caller. What goes has a last stamp outside the window or is unlocked, least recently
     active first; the cap is passed only when nobody unlocked is left.
     */
    method EvictIfNeeded()
      requires Full(numbers)
      modifies this`clock, this`numbers
      ensures old(clock) <= clock && Full(numbers) && Evicts(old(numbers), numbers, clock - WINDOW)
    {
      hide Freed;
      if |numbers| < CAP {
        return;
      }
      DropExpired();
      ghost var recent := numbers;
      ReleaseUnlocked();
      FreedLess(recent, numbers);
    }

    /** The caller's half of record_failure, as one event of its run. */
    method RecordNumber(key: string, stamp: real) returns (ghost e: Event)
      requires Valid() && stamp == clock && key != ""
      modifies this`clock, this`numbers, this`callerRun
      ensures Valid() && old(clock) <= clock && callerRun == old(callerRun) + [e]
      ensures e.Fail? && e.key == key && e.stamp == stamp && Enabled(true, old(Callers()), e)
    {
      hide Exec, Evicts, StoreOk;
      RunOk(true, begun, callerRun);
      ghost var was := Callers();
      assert Full(was.table) by { OkIsFull(was); }
      EvictIfNeeded();
      ghost var evictAt, kept := clock, numbers;
      var entry;
      numbers, entry := Prune(numbers, key);
      PruneThenAppend(kept, key, clock - WINDOW, stamp);
      numbers := numbers[key := entry + [stamp]];
      e := Event.Fail(key, stamp, evictAt, kept, clock);
      ExecOne(true, begun, callerRun, e);
      FailTable(true, was, e);
      callerRun := callerRun + [e];
    }

    /** The route's half: the same event of a table nothing is evicted from. */
    method RecordRoute(routeId: string, stamp: real) returns (ghost e: Event)
      requires Valid() && Routes().clock <= stamp <= clock && routeId != ""
      modifies this`clock, this`routes, this`routeRun
      ensures Valid() && old(clock) <= clock && routeRun == old(routeRun) + [e]
      ensures e.Fail? && e.key == routeId && e.stamp == stamp && Enabled(false, old(Routes()), e)
    {
      hide Exec, StoreOk;
      RunOk(false, begun, routeRun);
      ghost var was := Routes();
      assert Full(was.table) by { OkIsFull(was); }
      var entry;
      ghost var before := routes;
      routes, entry := Prune(routes, routeId);
      PruneThenAppend(before, routeId, clock - WINDOW, stamp);
      routes := routes[routeId := entry + [stamp]];
      e := Event.Fail(routeId, stamp, stamp, before, clock);
      ExecOne(false, begun, routeRun, e);
      FailTable(false, was, e);
      routeRun := routeRun + [e];
    }

    /**
     record_failure: one failure under the caller, one under the route, of one stamp. Room is made for the caller, and
     a caller that was locked then is still there, unless a replay had brought it a stamp ahead of the clock.
     */
    method RecordFailure(number: string, routeId: string) returns (ghost stamp: real, ghost e: Event, ghost r: Event)
      requires Valid()
      modifies this`clock, this`numbers, this`routes, this`callerRun, this`routeRun
      ensures Valid() && old(clock) <= stamp <= clock
      ensures NormalizeDid(number) == "" ==> callerRun == old(callerRun)
      ensures NormalizeDid(number) != "" ==>
        && callerRun == old(callerRun) + [e] && e.Fail? && e.key == NormalizeDid(number) && e.stamp == stamp
        && (forall k | k !in old(Callers().ahead) && Locked(Get(old(numbers), k), e.evictAt - WINDOW) :: k in numbers)
        && (|numbers| <= CAP || forall k | k in numbers && k != e.key :: |numbers[k]| >= NUMBER_LIMIT)
      ensures routeId == "" ==> routeRun == old(routeRun)
      ensures routeId != "" ==>
        routeRun == old(routeRun) + [r] && r.Fail? && r.key == routeId && r.stamp == stamp && r.kept == old(routes)
    {
      hide Exec, Enabled, Locked, NormalizeDid, Step, StoreOk;
      ghost var was := Callers();
      RunOk(true, begun, callerRun);
      var now := Now();
      stamp := now;
      var key := NormalizeDid(number);
      e, r := Event.Clear(""), Event.Clear("");
      if key != "" {
        e := RecordNumber(key, now);
        ExecOne(true, begun, old(callerRun), e);
        FailSpares(was, e);
      }
      if routeId != "" {
        r := RecordRoute(routeId, now);
        RouteEvent(old(Routes()), r);
      }
    }

    /** A correct PIN clears the caller and no route; before the replay it is remembered against it. */
    method ClearNumber(number: string)
      requires Valid()
      modifies this`numbers, this`cleared, this`callerRun
      ensures Valid() && numbers == old(numbers) - {NormalizeDid(number)}
      ensures callerRun == old(callerRun) + [Event.Clear(NormalizeDid(number))]
      ensures cleared ==
        if seeded || NormalizeDid(number) == "" then old(cleared) else old(cleared) + {NormalizeDid(number)}
    {
      hide Exec, NormalizeDid;
      RunOk(true, begun, callerRun);
      var key := NormalizeDid(number);
      ExecOne(true, begun, callerRun, Event.Clear(key));
      callerRun := callerRun + [Event.Clear(key)];
      numbers := numbers - {key};
      if !seeded && key != "" {
        cleared := cleared + {key};
      }
    }

    /** sorted(stamps + table.get(key, [])) into one table, for every key the replay built. */
    static method Merge(table: Table, seeds: Table) returns (merged: Table)
      ensures merged == Merged(table, seeds)
    {
      hide SortStamps;
      merged := table;
      var left := seeds.Keys;
      while left != {}
        invariant left <= seeds.Keys
        invariant merged == MergedKeys(table, seeds, seeds.Keys - left)
        decreases left
      {
        var key :| key in left;
        left := left - {key};
        merged := merged[key := SortStamps(seeds[key] + Get(merged, key))];
      }
      assert seeds.Keys - left == seeds.Keys;
    }

    /** The events folded into two fresh tables, as the gate would have met them. */
    static method Fold(es: seq<Replay>, offset: real, cutoff: real) returns (w: Windows, replayed: nat)
      ensures w == Seeded(es, offset, cutoff) && replayed == Replayable(es, offset, cutoff)
    {
      w, replayed := Windows(map[], map[]), 0;
      for i := 0 to |es|
        invariant w == Seeded(es[..i], offset, cutoff) && replayed == Replayable(es[..i], offset, cutoff)
      {
        var e := es[i];
        assert es[..i + 1][..i] == es[..i];
        var t, key := e.at + offset, NormalizeDid(e.number);
        var ns, rs := w.numbers, w.routes;
        if e.failures > 0 && t > cutoff {
          if key != "" {
            ns := ns[key := Get(ns, key) + Repeat(t, e.failures)];
          }
          if e.route != "" {
            rs := rs[e.route := Get(rs, e.route) + Repeat(t, e.failures)];
          }
          replayed := replayed + e.failures;
        }
        if e.verified && key != "" {
          ns := ns - {key};
        }
        w := Windows(ns, rs);
      }
      assert es[..|es|] == es;
    }

    /** The callers' rebuilt windows join the table, and the cap is applied. */
    method TakeInNumbers(seeds: Table, ghost now: real)
      requires Valid() && Full(seeds) && now == clock
      modifies this`clock, this`numbers, this`callerRun
      ensures Valid() && now <= clock && callerRun == old(callerRun) + [Event.TakeIn(seeds, now, clock, numbers)]
      ensures Enabled(true, old(Callers()), Event.TakeIn(seeds, now, clock, numbers))
      ensures Full(Merged(old(numbers), seeds)) && Evicts(Merged(old(numbers), seeds), numbers, clock - WINDOW)
    {
      hide Exec, Evicts, StoreOk, Merged;
      RunOk(true, begun, callerRun);
      ghost var was := Callers();
      assert Full(was.table) by { OkIsFull(was); }
      MergedFull(numbers, seeds);
      numbers := Merge(numbers, seeds);
      EvictIfNeeded();
      ghost var e := Event.TakeIn(seeds, now, clock, numbers);
      ExecOne(true, begun, callerRun, e);
      TakeInTable(was, e, true);
      callerRun := callerRun + [e];
    }

    /** The routes' do. */
    method TakeInRoutes(seeds: Table, ghost now: real)
      requires Valid() && Full(seeds) && Routes().clock <= now <= clock
      modifies this`routes, this`routeRun
      ensures Valid() && routes == Merged(old(routes), seeds)
      ensures routeRun == old(routeRun) + [Event.TakeIn(seeds, now, now, routes)]
      ensures Enabled(false, old(Routes()), Event.TakeIn(seeds, now, now, routes))
    {
      hide Exec, StoreOk, Merged;
      RunOk(false, begun, routeRun);
      ghost var was := Routes();
      assert Full(was.table) by { OkIsFull(was); }
      MergedFull(routes, seeds);
      routes := Merge(routes, seeds);
      ghost var e := Event.TakeIn(seeds, now, now, routes);
      ExecOne(false, begun, routeRun, e);
      TakeInTable(was, e, false);
      routeRun := routeRun + [e];
    }

    /**
     The restart replay, whatever the log says: every route window becomes the sorted union of what the log rebuilds
     and what this process recorded, every caller's too (bar the ones it cleared), and then the cap is applied.
     */
    method Seed(calls: seq<LoggedCall>, wall: real)
      returns (replayed: nat, ghost offset: real, ghost cutoff: real)
      requires Valid()
      modifies this`clock, this`numbers, this`routes, this`callerRun, this`routeRun, this`cleared, this`seeded
      ensures Valid() && seeded && cleared == {}
      ensures old(clock) <= offset + wall <= cutoff + WINDOW <= clock
      ensures replayed == Replayable(Logged(calls), offset, cutoff)
      ensures routes == Merged(old(routes), Seeded(Logged(calls), offset, cutoff).routes)
      ensures var ns := Seeded(Logged(calls), offset, cutoff).numbers - old(cleared);
        && Full(Merged(old(numbers), ns)) && Evicts(Merged(old(numbers), ns), numbers, clock - WINDOW)
        && callerRun == old(callerRun) + [Event.TakeIn(ns, cutoff + WINDOW, clock, numbers)]
      ensures forall i, key | 0 <= i < |calls| && RefusedInside(calls[i], key, startedWall, offset, cutoff)
          && RefusedAt(calls[i]) + offset > clock - WINDOW && NotCompletedSince(calls, i, key, startedWall)
          && key !in old(cleared) ::
        Locked(Get(numbers, key), clock - WINDOW)
    {
      hide Exec, Evicts, Merged, Seeded, Replayable, SortEvents, Events, Enabled;
      var now := Now();
      offset := now - wall;
      var later := Now();
      cutoff := later - WINDOW;
      var es := Logged(calls);
      SeededFull(es, offset, cutoff);
      var w;
      w, replayed := Fold(es, now - wall, later - WINDOW);
      TakeInRoutes(w.routes, later);
      TakeInNumbers(w.numbers - cleared, later);
      forall i, key | 0 <= i < |calls| && RefusedInside(calls[i], key, startedWall, offset, cutoff)
          && RefusedAt(calls[i]) + offset > clock - WINDOW && NotCompletedSince(calls, i, key, startedWall)
          && key !in old(cleared)
        ensures Locked(Get(numbers, key), clock - WINDOW)
      {
        RefusedIsLockedAgain(
          old(numbers), cleared, numbers, calls, i, key, startedWall, offset, cutoff, clock - WINDOW);
      }
      cleared := {};
      seeded := true;
    }

    /** The replayable calls, oldest first. */
    function Logged(calls: seq<LoggedCall>): (es: seq<Replay>)
      ensures InOrder(es) && multiset(es) == multiset(Events(calls, startedWall))
    {
      SortEventsSorts(Events(calls, startedWall));
      OldestFirst(calls, startedWall)
    }
  }

  lemma OkIsFull(s: Store)
    requires StoreOk(s)
    ensures Full(s.table)
  {
  }

  lemma PruneThenAppend(t: Table, key: string, cutoff: real, stamp: real)
    ensures Append(Pruned(t, key, cutoff), key, stamp) ==
      Pruned(t, key, cutoff)[key := After(Get(t, key), cutoff) + [stamp]]
  {
    hide After;
  }

  lemma FailTable(capped: bool, s: Store, e: Event)
    requires e.Fail? && Enabled(capped, s, e)
    ensures var t := Step(capped, s, e);
      t.clock == e.pruneAt && t.table == Append(Pruned(e.kept, e.key, e.pruneAt - WINDOW), e.key, e.stamp)
  {
    hide Lost, Keeps, Pruned;
  }

  lemma TakeInTable(s: Store, e: Event, capped: bool)
    requires e.TakeIn? && Enabled(capped, s, e)
    ensures var t := Step(capped, s, e); t.clock == e.evictAt && t.table == e.kept
  {
    hide Lost, Keeps, Merged;
  }

  lemma FailSpares(s: Store, e: Event)
    requires StoreOk(s) && e.Fail? && Enabled(true, s, e)
    ensures var t := Step(true, s, e).table;
      && (forall k | k !in s.ahead && Locked(Get(s.table, k), e.evictAt - WINDOW) :: k in t)
      && (|t| <= CAP || forall k | k in t && k != e.key :: |t[k]| >= NUMBER_LIMIT)
  {
    hide Locked, Evicts, After;
    CapIsKept(s, e);
    FailTable(true, s, e);
    forall k | k !in s.ahead && Locked(Get(s.table, k), e.evictAt - WINDOW) ensures k in Step(true, s, e).table {
      LockedIsKept(s, e.kept, e.evictAt, k);
    }
    hide StoreOk, Step;
  }

  lemma RouteEvent(s: Store, e: Event)
    requires e.Fail? && Enabled(false, s, e)
    ensures e.kept == s.table
  {
  }

  lemma OneReleased(before: Table, wider: Table, v: string)
    requires Full(before) && Subtable(wider, before) && Unlocked(wider, v)
    requires forall k | Unlocked(wider, k) :: LeastRecent(wider, v, k)
    requires forall k, j | k in before && k !in wider && j in wider && Unlocked(wider, j) :: LeastRecent(before, k, j)
    ensures Unlocked(before, v)
    ensures forall k, j | k in before && k !in wider - {v} && j in wider - {v} && Unlocked(wider - {v}, j) ::
              LeastRecent(before, k, j)
  {
    hide StrLeq;
    forall k, j | k in before && k !in wider - {v} && j in wider - {v} && Unlocked(wider - {v}, j)
      ensures LeastRecent(before, k, j)
    {
      assert Unlocked(wider, j);
      if k == v { assert LeastRecent(wider, v, j); }
    }
  }
}
