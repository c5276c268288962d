/**
 One HTTP request through the platform middleware: the body cap that widens on a proven credential, the
 body deadline, and the single response while the app's sends and reads interleave with the middleware's answers.
 */
module Exchange {
  import opened Wrappers

  function Min(a: int, b: int): int { if a < b then a else b }

  function Max(a: int, b: int): int { if a < b then b else a }

  // The cap of a route

  datatype Settings = Settings(backstop: int, auth: int, webhook: int, json: int, unauth: int)

  /** What the path matches, in the order body_cap looks: the cap is a listed route's own. */
  datatype Route = AuthRoute | WebhookRoute | ListedRoute(cap: int) | ActionRoute | OwnTokenRoute | OtherRoute

  const ACTION_CAP := 1024 * 1024

  /** A tier set to 0 is off. */
  function Tier(value: int, backstop: int): int {
    if value > 0 then Min(value, backstop) else backstop
  }

  /** The cap and whether the unauthenticated tier may narrow it. */
  function BodyCapOf(route: Route, c: Settings): (r: (int, bool))
    ensures r.0 <= c.backstop
  {
    match route
    case AuthRoute => (Tier(c.auth, c.backstop), true)
    case WebhookRoute => (Tier(c.webhook, c.backstop), false)
    case ListedRoute(cap) => (Min(cap, c.backstop), true)
    case ActionRoute => (Min(ACTION_CAP, c.backstop), false)
    case OwnTokenRoute => (Tier(c.json, c.backstop), false)
    case OtherRoute => (Tier(c.json, c.backstop), true)
  }

  // The body cap

  datatype Verdict = Valid | Invalid | Absent

  datatype Cap = Cap(cap: int, full: int, credential: Option<Verdict>, received: int, lifts: bool, ceiling: int)

  function InitialCap(route: Route, c: Settings, webhookCeiling: int): Cap {
    var (full, narrowable) := BodyCapOf(route, c);
    Cap(if narrowable && c.unauth > 0 then Min(c.unauth, full) else full, full, None, 0,
        route == WebhookRoute,
        if route == WebhookRoute then Min(c.backstop, Max(full, webhookCeiling)) else 0)
  }

  function Prove(c: Cap, verdict: Verdict): Cap {
    if c.credential.Some? then c
    else c.(credential := Some(verdict), cap := if verdict == Valid then c.full else c.cap)
  }

  predicate Proven(c: Cap) { c.credential == Some(Valid) }

  /** The cap once a body of `size` was judged: a webhook route's own lift, else a credential, may widen it. */
  function Judge(c: Cap, size: int, verdict: Verdict, granted: int): Cap {
    if size <= c.cap then c
    else if c.lifts then c.(cap := Max(c.cap, Min(c.ceiling, granted)))
    else if c.cap < c.full then Prove(c, verdict)
    else c
  }

  function Refusal(c: Cap): int {
    if c.credential == Some(Invalid) then 401 else 413
  }

  /** A cap that came from `start`, on a server whose backstop is `backstop`. */
  predicate CapFrom(c: Cap, start: Cap, backstop: int) {
    && c.full == start.full && c.lifts == start.lifts && c.ceiling == start.ceiling
    && start.cap <= c.cap <= backstop && c.full <= backstop && (c.lifts ==> c.ceiling <= backstop)
    && start.cap <= c.full
    && (!c.lifts && !Proven(c) ==> c.cap == start.cap)
    && (!c.lifts && Proven(c) ==> c.cap == c.full)
  }

  lemma CapStartsInForce(route: Route, c: Settings, webhookCeiling: int)
    ensures var s := InitialCap(route, c, webhookCeiling); CapFrom(s, s, c.backstop)
    ensures var s := InitialCap(route, c, webhookCeiling);
      (route in {AuthRoute, OtherRoute} || route.ListedRoute?) && 0 < c.unauth ==> s.cap <= c.unauth
  {
  }

  /** Judging only widens the cap, never past the backstop, and only on proof unless the route lifts it itself. */
  lemma JudgeKeepsCap(c: Cap, start: Cap, backstop: int, size: int, verdict: Verdict, granted: int)
    requires CapFrom(c, start, backstop)
    ensures CapFrom(Judge(c, size, verdict, granted), start, backstop)
    ensures !c.lifts ==> CapFrom(Prove(c, verdict), start, backstop) && c.cap <= Prove(c, verdict).cap
    ensures c.cap <= Judge(c, size, verdict, granted).cap
  {
  }

  /** The request's body cap object; `evaluations` counts the credential checks. */
  class BodyCap {
    var cap: int
    const full: int
    var credential: Option<Verdict>
    var received: int
    const lifts: bool
    const ceiling: int
    ghost var evaluations: nat

    function View(): Cap
      reads this
    {
      Cap(cap, full, credential, received, lifts, ceiling)
    }

    ghost predicate Valid()
      reads this
    {
      evaluations == if credential.None? then 0 else 1
    }

    constructor (start: Cap)
      requires start.credential.None?
      ensures View() == start && Valid()
    {
      cap, full, credential, received := start.cap, start.full, None, start.received;
      lifts, ceiling := start.lifts, start.ceiling;
      evaluations := 0;
    }

    /** credential_state(): the oracle, asked at most once over the request's life. */
    method Check(verdict: Verdict) returns (v: Verdict)
      requires credential.None?
      modifies this`evaluations
      ensures v == verdict && evaluations == old(evaluations) + 1
    {
      evaluations := evaluations + 1;
      v := verdict;
    }

    method ProvenNow(verdict: Verdict) returns (ok: bool)
      requires Valid()
      modifies this`cap, this`credential, this`evaluations
      ensures Valid() && View() == Prove(old(View()), verdict) && ok == Proven(View())
    {
      if credential.None? {
        var v := Check(verdict);
        credential := Some(v);
        if v == Verdict.Valid {
          cap := full;
        }
      }
      ok := credential == Some(Verdict.Valid);
    }

    method Exceeded(size: int, verdict: Verdict, granted: int) returns (over: bool)
      requires Valid()
      modifies this`cap, this`credential, this`evaluations
      ensures Valid() && View() == Judge(old(View()), size, verdict, granted) && over == (size > cap)
    {
      if size <= cap {
        return false;
      }
      if lifts {
        cap := Max(cap, Min(ceiling, granted));
        return size > cap;
      }
      if cap < full {
        var ok := ProvenNow(verdict);
      }
      over := size > cap;
    }

    /** The early judgement of a declared length. */
    method DeclaredExceeded(size: int, verdict: Verdict) returns (over: bool)
      requires Valid()
      modifies this`cap, this`credential, this`evaluations
      ensures Valid()
      ensures lifts ==> View() == old(View()) && over == (size > ceiling)
      ensures !lifts ==> View() == Judge(old(View()), size, verdict, 0) && over == (size > cap)
    {
      if lifts {
        return size > ceiling;
      }
      over := Exceeded(size, verdict, 0);
    }
  }

  // The body deadline

  const GAP := 10.0
  const WHOLE := 30.0

  function MinR(a: real, b: real): real { if a < b then a else b }

  function MaxR(a: real, b: real): real { if a < b then b else a }

  function WaitAt(due: real, now: real): real { MinR(GAP, MaxR(due - now, 0.0)) }

  class BodyDeadline {
    var timed: bool
    var due: real

    constructor (timed: bool)
      ensures this.timed == timed && due == 0.0
    {
      this.timed, due := timed, 0.0;
    }

    /** The whole-body clock starts at the first read; the loop's clock is never negative. */
    method WaitS(now: real) returns (wait: real)
      requires now >= 0.0
      modifies this`due
      ensures due == if old(due) == 0.0 then now + WHOLE else old(due)
      ensures due != 0.0 && wait == WaitAt(due, now) && 0.0 <= wait <= GAP
    {
      if due == 0.0 {
        due := now + WHOLE;
      }
      wait := MinR(GAP, MaxR(due - now, 0.0));
    }
  }

  /** One timed read that ended: when its wait began and when it ended. */
  datatype Wait = Wait(begin: real, end: real)

  /** One that has not: asyncio.timeout ends it at `until` at the latest. */
  datatype Timer = Timer(begin: real, until: real)

  /** The loop's clock, the whole-body deadline once set, the timed reads pending and those that ended. */
  datatype Clocks = Clocks(now: real, due: Option<real>, timers: seq<Timer>, waits: seq<Wait>)

  /** The clock may read `now`: no timer has been missed. */
  predicate OnTime(c: Clocks, now: real) {
    c.now <= now && forall k | 0 <= k < |c.timers| :: now <= c.timers[k].until
  }

  function DueAt(c: Clocks, now: real): real { if c.due.Some? then c.due.value else now + WHOLE }

  /** wait_s and the timer armed with it. */
  function Armed(c: Clocks, now: real): Clocks {
    var due := DueAt(c, now);
    c.(now := now, due := Some(due), timers := c.timers + [Timer(now, now + WaitAt(due, now))])
  }

  function Disarmed(c: Clocks, k: nat, now: real): Clocks
    requires k < |c.timers|
  {
    c.(now := now, timers := c.timers[..k] + c.timers[k + 1..], waits := c.waits + [Wait(c.timers[k].begin, now)])
  }

  function Waited(ws: seq<Wait>): real {
    if ws == [] then 0.0 else Waited(ws[..|ws| - 1]) + (ws[|ws| - 1].end - ws[|ws| - 1].begin)
  }

  // The exchange, step by step: a step runs from one await to the next

  /** A message the server got: the middleware's own or the app's, a response start or a body. */
  datatype Sent = Sent(own: bool, start: bool, status: int, close: bool)

  /** The sending half. */
  datatype Response = Response(
    started: bool, answered: bool,
    starting: Option<Sent>,               // the app's start, held by the session refresh
    ownBody: bool,                        // the middleware's own body, still to be sent
    log: seq<Sent>,
    refusing: bool)                       // a judge refused: the app is never called

  /** The reading half. */
  datatype Reading = Reading(
    cut: bool, bodyOpen: bool, timed: bool, cap: Cap,
    clocks: Clocks,                       // with the reads that await a message on a timer
    plainReads: nat,                      // and how many await one without
    handed: int)                          // body bytes the app was given

  datatype State = State(resp: Response, body: Reading)

  datatype Event =
    | AppSend(start: bool, status: int)
    | Deliver                                 // the held start goes out
    | DeliverOwnBody
    | RefusalSend(start: bool, status: int)
    | Fail(guarded: bool)                     // the app raised; guarded: the 500 guard answers this path
    | BeginRead(now: real)
    | Arrive(on: Option<nat>, now: real, size: nat, more: bool, verdict: Verdict, granted: int)
    | Hangup(on: Option<nat>, now: real)      // the server reports the client gone
    | RunOut(k: nat, verdict: Verdict)        // timer k ran out

  /** The middleware's own answer; its body follows at the next await. */
  function Answer(r: Response, status: int, close: bool): Response {
    r.(answered := true, started := true, ownBody := true, log := r.log + [Sent(true, true, status, close)])
  }

  function Send(r: Response, e: Event, bodyOpen: bool, cut: bool): Response {
    match e
    case AppSend(start, status) =>
      if r.answered then r
      else if start then r.(started := true, starting := Some(Sent(false, true, status, bodyOpen)))
      else r.(log := r.log + [Sent(false, false, 0, false)])
    case Deliver =>
      if r.starting.None? then r else r.(log := r.log + [r.starting.value], starting := None)
    case DeliverOwnBody =>
      if r.ownBody then r.(log := r.log + [Sent(true, false, 0, false)], ownBody := false) else r
    case RefusalSend(start, status) =>
      if !r.refusing || (start && r.started) then r
      else r.(started := r.started || start, log := r.log + [Sent(true, start, status, false)])
    case Fail(guarded) =>
      if cut || r.started || !guarded then r else Answer(r, 500, bodyOpen)
    case _ => r
  }

  /** The read the event ends: one on a timer, or one without. */
  predicate Pending(b: Reading, on: Option<nat>) {
    if on.Some? then on.value < |b.clocks.timers| else b.plainReads > 0
  }

  function EndRead(b: Reading, on: Option<nat>, now: real): Reading
    requires Pending(b, on)
  {
    if on.Some? then b.(clocks := Disarmed(b.clocks, on.value, now))
    else b.(plainReads := b.plainReads - 1, clocks := b.clocks.(now := now))
  }

  /** A body message: counted, judged, and handed over or cut; a cut names the answer's status. */
  function Arrived(b: Reading, size: nat, more: bool, verdict: Verdict, granted: int): (Reading, Option<int>) {
    var d := if more then b else b.(timed := false, bodyOpen := false);
    var total := d.cap.received + size;
    var c := Judge(d.cap.(received := total), total, verdict, granted);
    if total > c.cap then (d.(cap := c, cut := true), Some(Refusal(c)))
    else (d.(cap := c, handed := d.handed + size), None)
  }

  /** A timer that ran out: a proven credential goes on without one, anything else is cut. */
  function TimedOut(b: Reading, verdict: Verdict): (Reading, Option<int>) {
    var c := Prove(b.cap, verdict);
    var d := b.(timed := false, cap := c);
    if Proven(c) then (d.(plainReads := d.plainReads + 1), None) else (d.(cut := true), Some(408))
  }

  function Begun(b: Reading, now: real): Reading {
    if b.timed then b.(clocks := Armed(b.clocks, now))
    else b.(plainReads := b.plainReads + 1, clocks := b.clocks.(now := now))
  }

  function Read(b: Reading, e: Event): (Reading, Option<int>) {
    match e
    case BeginRead(now) =>
      if b.cut || !OnTime(b.clocks, now) then (b, None) else (Begun(b, now), None)
    case Arrive(on, now, size, more, verdict, granted) =>
      if !Pending(b, on) || !OnTime(b.clocks, now) then (b, None)
      else Arrived(EndRead(b, on, now), size, more, verdict, granted)
    case Hangup(on, now) =>
      if !Pending(b, on) || !OnTime(b.clocks, now) then (b, None)
      else (EndRead(b, on, now).(timed := false, bodyOpen := false), None)
    case RunOut(k, verdict) =>
      if !Pending(b, Some(k)) || !OnTime(b.clocks, b.clocks.timers[k].until) then (b, None)
      else TimedOut(EndRead(b, Some(k), b.clocks.timers[k].until), verdict)
    case _ => (b, None)
  }

  /** A cut answers only when no response has started. */
  function CutAnswer(r: Response, cut: Option<int>): Response {
    if cut.None? || r.started then r else Answer(r, cut.value, true)
  }

  /** A cut's whole answer, when nothing else runs between its two messages. */
  function Cutting(r: Response, cut: Option<int>, bodyOpen: bool): Response {
    if cut.None? then r else Send(CutAnswer(r, cut), DeliverOwnBody, bodyOpen, true)
  }

  function Step(s: State, e: Event): State {
    var (body, cut) := Read(s.body, e);
    State(CutAnswer(Send(s.resp, e, s.body.bodyOpen, s.body.cut), cut), body)
  }

  function Exec(s: State, es: seq<Event>): State {
    if es == [] then s else Step(Exec(s, es[..|es| - 1]), es[|es| - 1])
  }

  /** The request once the middleware judged its headers: refused, cut on its declared length, or on to the app. */
  function Begin(refused: bool, cap: Cap, declared: Option<int>, chunked: bool, verdict: Verdict, now: real): State {
    var resp := Response(false, refused, None, false, [], refused);
    var body := Reading(false, false, !cap.lifts, cap, Clocks(now, None, [], []), 0, 0);
    if refused then State(resp, body)
    else if declared.None? then State(resp, body.(bodyOpen := chunked))
    else
      var c := if cap.lifts then cap else Judge(cap, declared.value, verdict, 0);
      if declared.value > (if cap.lifts then cap.ceiling else c.cap)
      then State(Answer(resp, Refusal(c), true), body.(cap := c))
      else State(resp, body.(cap := c, bodyOpen := declared.value != 0))
  }

  // One response

  function Starts(log: seq<Sent>): nat {
    if log == [] then 0 else Starts(log[..|log| - 1]) + if log[|log| - 1].start then 1 else 0
  }

  /** How many response starts the app emits in a run. */
  function AppStarts(es: seq<Event>): nat {
    if es == [] then 0
    else AppStarts(es[..|es| - 1]) + if es[|es| - 1].AppSend? && es[|es| - 1].start then 1 else 0
  }

  predicate OwnLast(log: seq<Sent>) {
    forall i, j | 0 <= i < j < |log| && log[i].own :: log[j].own
  }

  predicate NoneOwn(log: seq<Sent>) {
    forall i | 0 <= i < |log| :: !log[i].own
  }

  /** What holds of the sending half between any two steps, when the app has emitted `emitted` starts. */
  predicate Orderly(r: Response, emitted: nat) {
    var starts := Starts(r.log) + if r.starting.Some? then 1 else 0;
    && OwnLast(r.log)
    && (r.refusing ==> r.answered)
    && (r.answered ==> r.starting.None? && starts == (if r.started then 1 else 0) && (r.started || r.refusing))
    && (!r.answered ==> starts <= emitted && (r.started <==> starts > 0) && !r.ownBody && NoneOwn(r.log))
    && (r.starting.Some? ==> r.starting.value.start && !r.starting.value.own)
  }

  lemma LogAppend(log: seq<Sent>, m: Sent)
    ensures Starts(log + [m]) == Starts(log) + if m.start then 1 else 0
    ensures OwnLast(log) && (m.own || NoneOwn(log)) ==> OwnLast(log + [m])
    ensures NoneOwn(log) && !m.own ==> NoneOwn(log + [m])
  {
    assert (log + [m])[..|log|] == log;
  }

  lemma AnswerIsOrderly(r: Response, status: int, close: bool, emitted: nat)
    requires Orderly(r, emitted) && !r.started
    ensures Orderly(Answer(r, status, close), emitted)
  {
    hide Starts, OwnLast, NoneOwn;
    LogAppend(r.log, Sent(true, true, status, close));
  }

  lemma SendIsOrderly(r: Response, e: Event, bodyOpen: bool, cut: bool, emitted: nat)
    requires Orderly(r, emitted)
    ensures Orderly(Send(r, e, bodyOpen, cut), emitted + if e.AppSend? && e.start then 1 else 0)
  {
    hide Starts, OwnLast, NoneOwn;
    match e
    case AppSend(start, status) => LogAppend(r.log, Sent(false, false, 0, false));
    case Deliver => if r.starting.Some? { LogAppend(r.log, r.starting.value); }
    case DeliverOwnBody => LogAppend(r.log, Sent(true, false, 0, false));
    case RefusalSend(start, status) => LogAppend(r.log, Sent(true, start, status, false));
    case Fail(guarded) => if !r.started { AnswerIsOrderly(r, 500, bodyOpen, emitted); }
    case _ =>
  }

  lemma StepIsOrderly(s: State, e: Event, emitted: nat)
    requires Orderly(s.resp, emitted)
    ensures Orderly(Step(s, e).resp, emitted + if e.AppSend? && e.start then 1 else 0)
  {
    hide Orderly, Send, Read, Answer;
    SendIsOrderly(s.resp, e, s.body.bodyOpen, s.body.cut, emitted);
    var r := Send(s.resp, e, s.body.bodyOpen, s.body.cut);
    var cut := Read(s.body, e).1;
    if cut.Some? && !r.started {
      AnswerIsOrderly(r, cut.value, true, emitted + if e.AppSend? && e.start then 1 else 0);
    }
  }

  lemma {:induction false} RunIsOrderly(s: State, es: seq<Event>)
    requires Orderly(s.resp, 0)
    ensures Orderly(Exec(s, es).resp, AppStarts(es))
  {
    hide Orderly, Step;
    if es != [] {
      RunIsOrderly(s, es[..|es| - 1]);
      StepIsOrderly(Exec(s, es[..|es| - 1]), es[|es| - 1], AppStarts(es[..|es| - 1]));
    }
  }

  /**
   Whatever the app, its reads and the middleware's cuts and guards do to each other: an app that emits one
   start at most gives the server one start at most, and nothing of the app's follows the middleware's answer.
   */
  lemma OneResponse(refused: bool, cap: Cap, declared: Option<int>, chunked: bool, verdict: Verdict,
                    now: real, es: seq<Event>)
    requires AppStarts(es) <= 1
    ensures var s := Exec(Begin(refused, cap, declared, chunked, verdict, now), es);
      Starts(s.resp.log) <= 1 && OwnLast(s.resp.log)
  {
    hide Judge, Exec;
    var s := Begin(refused, cap, declared, chunked, verdict, now);
    if s.resp.log != [] {
      assert s.resp.log == [] + [s.resp.log[0]];
      LogAppend([], s.resp.log[0]);
    }
    RunIsOrderly(s, es);
  }

  // What the server is told

  /** The middleware's own messages, in order. */
  function Own(log: seq<Sent>): seq<Sent> {
    if log == [] then []
    else Own(log[..|log| - 1]) + if log[|log| - 1].own then [log[|log| - 1]] else []
  }

  /** How many messages of the log are not starts. */
  function Bodies(log: seq<Sent>): int { |log| - Starts(log) }

  function Emitted(es: seq<Event>, start: bool): nat {
    if es == [] then 0
    else
      var e := es[|es| - 1];
      Emitted(es[..|es| - 1], start) + if e.AppSend? && e.start == start then 1 else 0
  }

  /** The middleware's own answer: a start, then one body. */
  predicate WholeAnswer(own: seq<Sent>, bodyDue: bool) {
    && own != [] && own[0].own && own[0].start && own[0].status in {401, 408, 413, 500}
    && own[1..] == if bodyDue then [] else [Sent(true, false, 0, false)]
  }

  predicate Told(r: Response, starts: nat, bodies: nat) {
    && !r.refusing && (r.ownBody ==> r.answered)
    && (if r.answered then WholeAnswer(Own(r.log), r.ownBody)
        else
          && Own(r.log) == [] && Bodies(r.log) == bodies
          && (r.started <==> starts > 0)
          && (starts <= 1 ==> Starts(r.log) + (if r.starting.Some? then 1 else 0) == starts))
  }

  lemma LogGrows(log: seq<Sent>, m: Sent)
    ensures Own(log + [m]) == Own(log) + (if m.own then [m] else [])
    ensures Bodies(log + [m]) == Bodies(log) + if m.start then 0 else 1
    ensures Starts(log + [m]) == Starts(log) + if m.start then 1 else 0
  {
    assert (log + [m])[..|log|] == log;
  }

  lemma AnswerIsTold(r: Response, status: int, close: bool, starts: nat, bodies: nat)
    requires Told(r, starts, bodies) && !r.started && !r.answered && status in {401, 408, 413, 500}
    ensures Told(Answer(r, status, close), starts, bodies)
  {
    hide Own, Starts;
    LogGrows(r.log, Sent(true, true, status, close));
  }

  lemma SendIsTold(r: Response, e: Event, bodyOpen: bool, cut: bool, starts: nat, bodies: nat)
    requires Told(r, starts, bodies) && (r.answered ==> r.starting.None? && r.started)
    requires r.starting.Some? ==> r.starting.value.start && !r.starting.value.own
    ensures var (more, less) := if e.AppSend? then (if e.start then (1, 0) else (0, 1)) else (0, 0);
      Told(Send(r, e, bodyOpen, cut), starts + more, bodies + less)
  {
    hide Own, Starts;
    match e
    case AppSend(start, status) => LogGrows(r.log, Sent(false, false, 0, false));
    case Deliver => if r.starting.Some? { LogGrows(r.log, r.starting.value); }
    case DeliverOwnBody => LogGrows(r.log, Sent(true, false, 0, false));
    case Fail(guarded) => if !r.started { AnswerIsTold(r, 500, bodyOpen, starts, bodies); }
    case _ =>
  }

  lemma CutCodes(b: Reading, e: Event)
    ensures Read(b, e).1.Some? ==> Read(b, e).1.value in {401, 408, 413}
  {
    hide Judge, Armed, Disarmed, OnTime;
  }

  lemma StepIsTold(s: State, e: Event, starts: nat, bodies: nat, emitted: nat)
    requires Told(s.resp, starts, bodies) && Orderly(s.resp, emitted)
    ensures var (more, less) := if e.AppSend? then (if e.start then (1, 0) else (0, 1)) else (0, 0);
      Told(Step(s, e).resp, starts + more, bodies + less)
  {
    hide Own, Starts, Send, Read, Answer, OwnLast, NoneOwn, WholeAnswer;
    CutCodes(s.body, e);
    SendIsTold(s.resp, e, s.body.bodyOpen, s.body.cut, starts, bodies);
    var r := Send(s.resp, e, s.body.bodyOpen, s.body.cut);
    SendIsOrderly(s.resp, e, s.body.bodyOpen, s.body.cut, emitted);
    var cut := Read(s.body, e).1;
    if cut.Some? && !r.started {
      var (more, less) := if e.AppSend? then (if e.start then (1, 0) else (0, 1)) else (0, 0);
      AnswerIsTold(r, cut.value, true, starts + more, bodies + less);
    }
  }

  lemma {:induction false} RunIsTold(s: State, es: seq<Event>)
    requires Told(s.resp, 0, 0) && Orderly(s.resp, 0)
    ensures Told(Exec(s, es).resp, Emitted(es, true), Emitted(es, false))
  {
    hide Told, Orderly, Step;
    if es != [] {
      var init := es[..|es| - 1];
      RunIsTold(s, init);
      RunIsOrderly(s, init);
      StepIsTold(Exec(s, init), es[|es| - 1], Emitted(init, true), Emitted(init, false), AppStarts(init));
    }
  }

  /**
   Over every run of a request no judge refused: as long as the middleware has not answered itself, every message of the
   app has reached the server, but for a start still held; once it has, its answer is one start with one of its four
   codes and, when that has been delivered, one body.
   */
  lemma ServerIsTold(cap: Cap, declared: Option<int>, chunked: bool, verdict: Verdict, now: real, es: seq<Event>)
    ensures var r := Exec(Begin(false, cap, declared, chunked, verdict, now), es).resp;
      && (r.answered ==> WholeAnswer(Own(r.log), r.ownBody))
      && (!r.answered ==>
            && Own(r.log) == [] && Bodies(r.log) == Emitted(es, false)
            && (Emitted(es, true) <= 1 ==> Starts(r.log) + (if r.starting.Some? then 1 else 0) == Emitted(es, true)))
  {
    hide Judge, Exec, WholeAnswer;
    var s := Begin(false, cap, declared, chunked, verdict, now);
    BeginIsTold(cap, declared, chunked, verdict, now);
    RunIsTold(s, es);
  }

  lemma BeginIsTold(cap: Cap, declared: Option<int>, chunked: bool, verdict: Verdict, now: real)
    ensures var r := Begin(false, cap, declared, chunked, verdict, now).resp; Told(r, 0, 0) && Orderly(r, 0)
  {
    hide Judge;
    var r := Begin(false, cap, declared, chunked, verdict, now).resp;
    if r.log != [] {
      assert r.log == [] + [r.log[0]];
      LogGrows([], r.log[0]);
    }
  }

  /** What is held is delivered, a start or the answer's body, exactly once. */
  lemma HeldIsDelivered(s: State)
    ensures var r := Step(s, Deliver).resp;
      r.starting.None? && r.log == s.resp.log + if s.resp.starting.Some? then [s.resp.starting.value] else []
    ensures var r := Step(s, DeliverOwnBody).resp;
      !r.ownBody && r.log == s.resp.log + if s.resp.ownBody then [Sent(true, false, 0, false)] else []
  {
  }

  /** An app that raises with nothing started is answered for with 500, if its path is guarded and nothing was cut. */
  lemma FailureIsAnsweredIff(s: State, guarded: bool)
    requires !s.resp.started
    ensures var r := Step(s, Fail(guarded)).resp;
      if guarded && !s.body.cut
      then r.answered && r.started && r.ownBody && r.log == s.resp.log + [Sent(true, true, 500, s.body.bodyOpen)]
      else r == s.resp
  {
  }

  function Refusals(es: seq<Event>, start: bool): nat {
    if es == [] then 0
    else
      var e := es[|es| - 1];
      Refusals(es[..|es| - 1], start) + if e.RefusalSend? && e.start == start then 1 else 0
  }

  /** A refused request: the refusal's messages reach the server, one start at most; the app's never do. */
  lemma {:induction false} RefusalIsTold(cap: Cap, declared: Option<int>, chunked: bool, verdict: Verdict, now: real,
                                         es: seq<Event>)
    requires forall i | 0 <= i < |es| :: es[i].RefusalSend? || es[i].AppSend? || es[i].Deliver? || es[i].DeliverOwnBody?
    ensures var r := Exec(Begin(true, cap, declared, chunked, verdict, now), es).resp;
      && r.refusing && r.answered && !r.ownBody && r.starting.None? && (r.started <==> Refusals(es, true) > 0)
      && Own(r.log) == r.log && Bodies(r.log) == Refusals(es, false)
      && Starts(r.log) == if Refusals(es, true) > 0 then 1 else 0
  {
    hide Own, Starts;
    if es == [] {
      NothingTold();
    } else {
      var init, e := es[..|es| - 1], es[|es| - 1];
      RefusalIsTold(cap, declared, chunked, verdict, now, init);
      var r := Exec(Begin(true, cap, declared, chunked, verdict, now), init).resp;
      if e.RefusalSend? { LogGrows(r.log, Sent(true, e.start, e.status, false)); }
    }
  }

  lemma NothingTold()
    ensures Own([]) == [] && Starts([]) == 0
  {
  }

  // The body bound

  /** The bytes handed to the app against the cap in force. */
  predicate Bounded(b: Reading, start: Cap, backstop: int) {
    && CapFrom(b.cap, start, backstop) && (b.handed == 0 || b.handed <= b.cap.cap) && b.handed <= b.cap.received
    && (b.cap.lifts ==> !b.timed && b.clocks.timers == [])
  }

  /** The cap only widens, the app is never given less than before, and a credential's verdict is final. */
  predicate Monotone(b: Reading, d: Reading) {
    && b.cap.cap <= d.cap.cap && b.handed <= d.handed
    && (b.cap.credential.Some? ==> d.cap.credential == b.cap.credential)
  }

  lemma ArrivedIsBounded(b: Reading, size: nat, more: bool, verdict: Verdict, granted: int, start: Cap, backstop: int)
    requires Bounded(b, start, backstop)
    ensures var d := Arrived(b, size, more, verdict, granted).0; Bounded(d, start, backstop) && Monotone(b, d)
  {
    hide CapFrom;
    var total := b.cap.received + size;
    var c := b.cap.(received := total);
    assert CapFrom(c, start, backstop) by { ReceivedKeepsCap(b.cap, total, start, backstop); }
    JudgeKeepsCap(c, start, backstop, total, verdict, granted);
  }

  lemma ReceivedKeepsCap(c: Cap, total: int, start: Cap, backstop: int)
    requires CapFrom(c, start, backstop)
    ensures CapFrom(c.(received := total), start, backstop)
  {
  }

  lemma ReadIsBounded(b: Reading, e: Event, start: Cap, backstop: int)
    requires Bounded(b, start, backstop)
    ensures Bounded(Read(b, e).0, start, backstop) && Monotone(b, Read(b, e).0)
  {
    hide CapFrom, Judge, Arrived, Armed, OnTime;
    if e.Arrive? && Pending(b, e.on) {
      ArrivedIsBounded(EndRead(b, e.on, e.now), e.size, e.more, e.verdict, e.granted, start, backstop);
    } else if e.RunOut? && Pending(b, Some(e.k)) {
      JudgeKeepsCap(b.cap, start, backstop, 0, e.verdict, 0);
    }
  }

  lemma {:induction false} RunIsBounded(s: State, es: seq<Event>, start: Cap, backstop: int)
    requires Bounded(s.body, start, backstop)
    ensures Bounded(Exec(s, es).body, start, backstop)
  {
    hide Bounded, Monotone, Read, Send;
    if es != [] {
      RunIsBounded(s, es[..|es| - 1], start, backstop);
      ReadIsBounded(Exec(s, es[..|es| - 1]).body, es[|es| - 1], start, backstop);
    }
  }

  /**
   For every stream of messages: the app never holds more bytes than the cap in force, the cap never passes
   the backstop, and without proof of a credential it stays where the route and the unauthenticated tier put it.
   */
  lemma BodyIsBounded(route: Route, c: Settings, webhookCeiling: int, declared: Option<int>, chunked: bool,
                      verdict: Verdict, now: real, es: seq<Event>)
    ensures var start := InitialCap(route, c, webhookCeiling);
      var b := Exec(Begin(false, start, declared, chunked, verdict, now), es).body;
      && (b.handed == 0 || b.handed <= b.cap.cap) && b.cap.cap <= c.backstop
      && (route != WebhookRoute ==> b.cap.cap == if Proven(b.cap) then start.full else start.cap)
  {
    hide Exec;
    var start := InitialCap(route, c, webhookCeiling);
    CapStartsInForce(route, c, webhookCeiling);
    if declared.Some? {
      JudgeKeepsCap(start, start, c.backstop, declared.value, verdict, 0);
    }
    var s := Begin(false, start, declared, chunked, verdict, now);
    assert s.body.handed == 0 && s.body.cap.received == 0;
    RunIsBounded(s, es, start, c.backstop);
  }

  // The most a request can hand over, route by route

  /** A request no header judge refused, as the middleware begins it. */
  function Opened(route: Route, c: Settings, webhookCeiling: int, declared: Option<int>, chunked: bool,
                  verdict: Verdict, now: real): State {
    Begin(false, InitialCap(route, c, webhookCeiling), declared, chunked, verdict, now)
  }

  /** A tier that is on bounds n; one set to 0 does not. */
  predicate UnderTier(n: int, value: int) { value > 0 ==> n <= value }

  /** The bytes a route takes: under the backstop, its own tier, and the unauthenticated one for who proves nothing. */
  predicate Allowed(route: Route, c: Settings, webhookCeiling: int, proven: bool, n: int) {
    && n <= c.backstop
    && match route
       case AuthRoute => UnderTier(n, c.auth) && (proven || UnderTier(n, c.unauth))
       case ListedRoute(cap) => n <= cap && (proven || UnderTier(n, c.unauth))
       case OtherRoute => UnderTier(n, c.json) && (proven || UnderTier(n, c.unauth))
       case OwnTokenRoute => UnderTier(n, c.json)
       case ActionRoute => n <= 1024 * 1024
       case WebhookRoute => UnderTier(n, c.webhook) || n <= webhookCeiling
  }

  /** The cap a request starts with and the ones it can come to, said by what they let through. */
  lemma CapMeans(route: Route, c: Settings, webhookCeiling: int, n: int)
    ensures var s := InitialCap(route, c, webhookCeiling);
      && (route != WebhookRoute ==>
            (n <= s.cap <==> Allowed(route, c, webhookCeiling, false, n))
            && (n <= s.full <==> Allowed(route, c, webhookCeiling, true, n)) && !s.lifts)
      && (route == WebhookRoute ==>
            s.lifts && (n <= s.ceiling <==> Allowed(route, c, webhookCeiling, true, n)) && s.cap <= s.ceiling
            && (n <= s.ceiling ==> n <= s.cap || n <= webhookCeiling))
      && s.credential.None? && s.received == 0
  {
  }

  predicate UnderCeiling(b: Reading) {
    b.cap.lifts ==> b.cap.cap <= b.cap.ceiling && !b.timed && b.clocks.timers == []
  }

  lemma {:induction false} RunUnderCeiling(s: State, es: seq<Event>)
    requires UnderCeiling(s.body)
    ensures UnderCeiling(Exec(s, es).body) && Exec(s, es).body.cap.ceiling == s.body.cap.ceiling
    ensures Exec(s, es).body.cap.lifts == s.body.cap.lifts
  {
    hide UnderCeiling, Read, Send;
    if es != [] {
      RunUnderCeiling(s, es[..|es| - 1]);
      ReadUnderCeiling(Exec(s, es[..|es| - 1]).body, es[|es| - 1]);
    }
  }

  lemma ReadUnderCeiling(b: Reading, e: Event)
    requires UnderCeiling(b)
    ensures var d := Read(b, e).0; UnderCeiling(d) && d.cap.ceiling == b.cap.ceiling && d.cap.lifts == b.cap.lifts
  {
    hide Armed, Disarmed, OnTime;
  }

  /** Over every run, whatever is declared, sent, awaited or proven: what the app was handed, its route allows. */
  lemma HandedIsAllowed(route: Route, c: Settings, webhookCeiling: int, declared: Option<int>, chunked: bool,
                        verdict: Verdict, now: real, es: seq<Event>)
    ensures var b := Exec(Opened(route, c, webhookCeiling, declared, chunked, verdict, now), es).body;
      b.handed == 0 || Allowed(route, c, webhookCeiling, Proven(b.cap), b.handed)
  {
    hide Exec, InitialCap, Allowed, Judge;
    var start := InitialCap(route, c, webhookCeiling);
    var s := Opened(route, c, webhookCeiling, declared, chunked, verdict, now);
    var b := Exec(s, es).body;
    BodyIsBounded(route, c, webhookCeiling, declared, chunked, verdict, now, es);
    CapMeans(route, c, webhookCeiling, b.handed);
    if route == WebhookRoute {
      RunUnderCeiling(s, es);
      if b.handed != 0 { WebhookIsEither(c, webhookCeiling, b); }
    }
  }

  lemma WebhookIsEither(c: Settings, webhookCeiling: int, b: Reading)
    requires Allowed(WebhookRoute, c, webhookCeiling, true, b.handed)
    ensures Allowed(WebhookRoute, c, webhookCeiling, Proven(b.cap), b.handed)
  {
  }

  /** The one message that reaches a bound. */
  function OneMessage(route: Route, now: real, n: nat, verdict: Verdict, granted: int): seq<Event> {
    [BeginRead(now), Arrive(if route == WebhookRoute then None else Some(0), now, n, false, verdict, granted)]
  }

  lemma OneMessageIsHanded(route: Route, c: Settings, webhookCeiling: int, now: real, n: nat, verdict: Verdict)
    requires Allowed(route, c, webhookCeiling, verdict == Valid, n)
    ensures var s := Opened(route, c, webhookCeiling, None, true, Absent, now);
      var b := Exec(s, OneMessage(route, now, n, verdict, webhookCeiling)).body;
      b.handed == n && (verdict != Valid ==> !Proven(b.cap))
  {
    var s := Opened(route, c, webhookCeiling, None, true, Absent, now);
    var es := OneMessage(route, now, n, verdict, webhookCeiling);
    CapMeans(route, c, webhookCeiling, n);
    if route == WebhookRoute { WebhookAnyhow(c, webhookCeiling, n, verdict); }
    hide InitialCap, Allowed;
    assert es[..1] == [es[0]];
    ExecOne(s, es[0]);
    var one := Step(s, es[0]);
    assert Exec(s, es) == Step(one, es[1]);
    assert one.body == Begun(s.body, now);
    MessageArrives(one.body, route, now, n, verdict, webhookCeiling);
  }

  lemma MessageArrives(b: Reading, route: Route, now: real, n: nat, verdict: Verdict, granted: int)
    requires b.cap.credential.None? && b.cap.received == b.handed == 0 && b.clocks.now == now
    requires n <= if b.cap.lifts then b.cap.ceiling else if verdict == Valid then b.cap.full else b.cap.cap
    requires if route == WebhookRoute then b.cap.lifts && b.plainReads > 0 && b.clocks.timers == []
             else !b.cap.lifts && |b.clocks.timers| == 1 && b.clocks.timers[0].until >= now
    requires b.cap.lifts ==> n <= b.cap.cap || n <= granted
    ensures var on := if route == WebhookRoute then None else Some(0);
      var d := Read(b, Arrive(on, now, n, false, verdict, granted)).0;
      d.handed == n && (verdict != Valid ==> !Proven(d.cap))
  {
    hide Disarmed;
  }

  /**
   The largest amount each route hands over, and no more: an amount can be handed over exactly when the route allows
   it, and without a proven credential exactly when it allows it to who proves nothing.
   */
  lemma HandedIff(route: Route, c: Settings, webhookCeiling: int, now: real, n: nat, proven: bool)
    requires n > 0
    ensures Allowed(route, c, webhookCeiling, proven, n) <==>
      exists declared: Option<int>, chunked: bool, verdict: Verdict, es: seq<Event> ::
        var b := Exec(Opened(route, c, webhookCeiling, declared, chunked, verdict, now), es).body;
        b.handed == n && (Proven(b.cap) ==> proven)
  {
    hide Exec, InitialCap, Allowed, OneMessage;
    if Allowed(route, c, webhookCeiling, proven, n) {
      var verdict := if proven then Valid else Absent;
      OneMessageIsHanded(route, c, webhookCeiling, now, n, verdict);
      var es := OneMessage(route, now, n, verdict, webhookCeiling);
      var b := Exec(Opened(route, c, webhookCeiling, None, true, Absent, now), es).body;
      assert b.handed == n && (Proven(b.cap) ==> proven);
    }
    forall declared: Option<int>, chunked: bool, verdict: Verdict, es: seq<Event>
      ensures var b := Exec(Opened(route, c, webhookCeiling, declared, chunked, verdict, now), es).body;
        b.handed == n && (Proven(b.cap) ==> proven) ==> Allowed(route, c, webhookCeiling, proven, n)
    {
      HandedIsAllowed(route, c, webhookCeiling, declared, chunked, verdict, now, es);
      AllowedProven(route, c, webhookCeiling, n);
    }
  }

  lemma AllowedProven(route: Route, c: Settings, webhookCeiling: int, n: int)
    ensures Allowed(route, c, webhookCeiling, false, n) ==> Allowed(route, c, webhookCeiling, true, n)
  {
  }

  /** A wait that ran out ends the body with 408, unless the credential proves valid: then the read goes on, untimed. */
  lemma TimeoutCutsIff(b: Reading, verdict: Verdict)
    requires !b.cut
    ensures var (d, cut) := TimedOut(b, verdict);
      && !d.timed && d.handed == b.handed
      && (d.cut <==> Asked(b, verdict) != Valid) && cut == (if d.cut then Some(408) else None)
      && d.plainReads == b.plainReads + if d.cut then 0 else 1
  {
  }

  /** A declared length is refused at once exactly when the route would never take so much of this sender. */
  lemma DeclaredIsRefusedIff(route: Route, c: Settings, webhookCeiling: int, n: int, chunked: bool, verdict: Verdict,
                             now: real)
    ensures var r := Opened(route, c, webhookCeiling, Some(n), chunked, verdict, now).resp;
      && (r.answered <==> !Allowed(route, c, webhookCeiling, verdict == Valid, n))
      && (r.answered ==>
            && |r.log| == 1 && r.log[0].own && r.log[0].start && r.log[0].status in {401, 413}
            && r.log[0].close && (r.log[0].status == 401 ==> verdict == Invalid))
  {
    hide Allowed;
    CapMeans(route, c, webhookCeiling, n);
    if route == WebhookRoute { WebhookAnyhow(c, webhookCeiling, n, verdict); }
  }

  /** A cut tells the client at once, with its code and a close, exactly when nothing of a response has started. */
  lemma CutIsAnsweredIff(s: State, e: Event)
    requires (e.Arrive? || e.RunOut?) && !s.body.cut && Step(s, e).body.cut
    ensures var r := Step(s, e).resp;
      if s.resp.started then r == s.resp
      else
        && r.answered && r.started && r.ownBody && |r.log| == |s.resp.log| + 1 && r.log[..|s.resp.log|] == s.resp.log
        && var m := r.log[|s.resp.log|];
          m.own && m.start && m.close && (if e.RunOut? then m.status == 408 else m.status in {401, 413})
  {
    hide Judge, OnTime, Armed, Disarmed;
  }

  /** A request let through has a body to read exactly when it declares one or sends chunks, timed but for a webhook. */
  lemma BodyIsOpenIff(route: Route, c: Settings, webhookCeiling: int, declared: Option<int>, chunked: bool,
                      verdict: Verdict, now: real)
    ensures var s := Opened(route, c, webhookCeiling, declared, chunked, verdict, now);
      && (!s.resp.answered ==>
            (s.body.bodyOpen <==> if declared.Some? then declared.value != 0 else chunked)
            && (s.body.timed <==> route != WebhookRoute) && !s.body.cut && s.body.handed == 0 && Idle(s.body))
      && (s.resp.answered ==> declared.Some?)
  {
  }

  /** A declared length that only a credential allows asks for it once and for all. */
  lemma DeclaredAsksOnce(route: Route, c: Settings, webhookCeiling: int, n: int, chunked: bool, verdict: Verdict,
                         now: real)
    requires Allowed(route, c, webhookCeiling, true, n) && !Allowed(route, c, webhookCeiling, false, n)
    ensures var b := Opened(route, c, webhookCeiling, Some(n), chunked, verdict, now).body;
      b.cap.credential == Some(verdict) && (verdict == Valid ==> n <= b.cap.cap)
  {
  }

  lemma WebhookAnyhow(c: Settings, webhookCeiling: int, n: int, verdict: Verdict)
    ensures Allowed(WebhookRoute, c, webhookCeiling, verdict == Valid, n) <==>
      Allowed(WebhookRoute, c, webhookCeiling, true, n)
  {
  }

  /** Whether the credential, asked now or before, proves valid or not. */
  function Asked(b: Reading, verdict: Verdict): Verdict {
    if b.cap.credential.Some? then b.cap.credential.value else verdict
  }

  /** Judging a body over the cap asks for the credential. */
  predicate MustAsk(b: Reading) { b.cap.credential.None? && !b.cap.lifts && b.cap.cap < b.cap.full }

  /**
   A body message is handed over whole or cut: cut exactly when the bytes so far pass the cap and the wider one this
   sender may have; with 401 exactly when the credential was asked and does not verify, else with 413.
   */
  lemma ArrivalIsCutIff(b: Reading, size: nat, more: bool, verdict: Verdict, granted: int)
    requires Sound(b) && (b.cap.credential == Some(Valid) ==> b.cap.cap == b.cap.full)
    ensures var (d, cut) := Arrived(b, size, more, verdict, granted);
      var total := b.cap.received + size;
      var limit := if b.cap.lifts then Min(b.cap.ceiling, granted) else if Asked(b, verdict) == Valid then b.cap.full
                   else b.cap.cap;
      && (cut.Some? <==> total > b.cap.cap && total > limit) && d.cut == (b.cut || cut.Some?)
      && d.handed == (if cut.Some? then b.handed else b.handed + size) && d.cap.received == total
      && d.timed == (b.timed && more) && d.bodyOpen == (b.bodyOpen && more)
      && (cut.Some? ==>
            cut.value == if b.cap.credential == Some(Invalid) || (verdict == Invalid && MustAsk(b)) then 401 else 413)
  {
  }

  // After a cut

  /** No read awaits a message. */
  predicate Idle(b: Reading) { b.clocks.timers == [] && b.plainReads == 0 }

  /** Once cut with no read pending, the request gives the app nothing more, however it goes on reading. */
  lemma {:induction false} NothingAfterCut(s: State, es: seq<Event>)
    requires s.body.cut && Idle(s.body)
    ensures Exec(s, es).body == s.body
  {
    hide Send, Arrived, TimedOut, OnTime;
    if es != [] {
      NothingAfterCut(s, es[..|es| - 1]);
    }
  }

  /** What every run keeps of the reading half: the clock has passed no timer, and what may still widen the cap. */
  predicate Sound(b: Reading) {
    && OnTime(b.clocks, b.clocks.now)
    && (if b.cap.lifts then !b.timed && b.clocks.timers == [] else b.cap.cap <= b.cap.full)
  }

  lemma ArmedOnTime(c: Clocks, now: real)
    requires OnTime(c, now)
    ensures OnTime(Armed(c, now), now)
  {
  }

  lemma DisarmedOnTime(c: Clocks, k: nat, now: real)
    requires OnTime(c, now) && k < |c.timers|
    ensures OnTime(Disarmed(c, k, now), now) && Disarmed(c, k, now).now == now
  {
  }

  lemma EndReadIsSound(b: Reading, on: Option<nat>, now: real)
    requires Sound(b) && Pending(b, on) && OnTime(b.clocks, now)
    ensures Sound(EndRead(b, on, now))
  {
    hide OnTime, Disarmed;
    if on.Some? { DisarmedOnTime(b.clocks, on.value, now); } else { StillOnTime(b.clocks, now); }
    if b.cap.lifts { assert on.None?; }
  }

  lemma StillOnTime(c: Clocks, now: real)
    requires OnTime(c, now)
    ensures OnTime(c.(now := now), now)
  {
  }

  lemma ArrivedIsSound(b: Reading, size: nat, more: bool, verdict: Verdict, granted: int)
    requires Sound(b)
    ensures Sound(Arrived(b, size, more, verdict, granted).0)
  {
    hide OnTime, Refusal;
  }

  lemma ReadIsSound(b: Reading, e: Event)
    requires Sound(b)
    ensures Sound(Read(b, e).0)
  {
    hide Armed, Arrived, EndRead, OnTime, Refusal;
    match e
    case BeginRead(now) =>
      if OnTime(b.clocks, now) { ArmedOnTime(b.clocks, now); ArmedNow(b.clocks, now); StillOnTime(b.clocks, now); }
    case Arrive(on, now, size, more, verdict, granted) =>
      if Pending(b, on) && OnTime(b.clocks, now) {
        EndReadIsSound(b, on, now);
        ArrivedIsSound(EndRead(b, on, now), size, more, verdict, granted);
      }
    case Hangup(on, now) => if Pending(b, on) && OnTime(b.clocks, now) { EndReadIsSound(b, on, now); }
    case RunOut(k, verdict) =>
      if Pending(b, Some(k)) && OnTime(b.clocks, b.clocks.timers[k].until) {
        EndReadIsSound(b, Some(k), b.clocks.timers[k].until);
      }
    case _ =>
  }

  lemma ArmedNow(c: Clocks, now: real)
    ensures Armed(c, now).now == now
  {
  }

  lemma {:induction false} RunIsSound(s: State, es: seq<Event>)
    requires Sound(s.body)
    ensures Sound(Exec(s, es).body)
  {
    hide Sound, Read, Send;
    if es != [] {
      RunIsSound(s, es[..|es| - 1]);
      ReadIsSound(Exec(s, es[..|es| - 1]).body, es[|es| - 1]);
    }
  }

  lemma BeginIsSound(route: Route, c: Settings, webhookCeiling: int, refused: bool, declared: Option<int>,
                     chunked: bool, verdict: Verdict, now: real)
    ensures Sound(Begin(refused, InitialCap(route, c, webhookCeiling), declared, chunked, verdict, now).body)
  {
    CapStartsInForce(route, c, webhookCeiling);
    if declared.Some? {
      var start := InitialCap(route, c, webhookCeiling);
      JudgeKeepsCap(start, start, c.backstop, declared.value, verdict, 0);
    }
  }

  /** A cut request is done reading, whatever happens, exactly when no read was pending at the cut. */
  lemma CutIsFinalIff(s: State)
    requires s.body.cut && Sound(s.body)
    ensures (forall es: seq<Event> :: Exec(s, es).body == s.body) <==> Idle(s.body)
  {
    hide Exec;
    if Idle(s.body) {
      forall es: seq<Event> ensures Exec(s, es).body == s.body {
        NothingAfterCut(s, es);
      }
    } else {
      var on := if s.body.plainReads > 0 then None else Some(0);
      var e := Hangup(on, s.body.clocks.now);
      ExecOne(s, e);
      assert Exec(s, [e]).body != s.body;
    }
  }

  lemma ExecOne(s: State, e: Event)
    ensures Exec(s, [e]) == Step(s, e)
  {
    assert [e][..|[e]| - 1] == [];
  }

  /** The most the cap can still come to. */
  function Widest(c: Cap): int {
    if c.lifts then Max(c.cap, c.ceiling) else if c.credential.None? then Max(c.cap, c.full) else c.cap
  }

  lemma JudgeNarrows(c: Cap, size: int, verdict: Verdict, granted: int)
    requires c.lifts || c.cap <= c.full
    ensures c.cap <= Judge(c, size, verdict, granted).cap <= Widest(c)
    ensures Widest(Judge(c, size, verdict, granted)) <= Widest(c)
    ensures !c.lifts ==> Widest(Prove(c, verdict)) <= Widest(c)
  {
  }

  lemma ArriveSpent(b: Reading, size: nat, more: bool, verdict: Verdict, granted: int)
    requires b.cap.lifts || b.cap.cap <= b.cap.full
    requires b.cap.received >= Widest(b.cap)
    ensures var d := Arrived(b, size, more, verdict, granted).0;
      d.handed == b.handed && d.cap.received >= Widest(d.cap)
  {
    hide Judge, Widest;
    var c := b.cap.(received := b.cap.received + size);
    SameWidest(b.cap, c);
    JudgeNarrows(c, c.received, verdict, granted);
    JudgeKeepsReceived(c, c.received, verdict, granted);
  }

  lemma SameWidest(c: Cap, d: Cap)
    requires d == c.(received := d.received)
    ensures Widest(d) == Widest(c)
  {
  }

  lemma JudgeKeepsReceived(c: Cap, size: int, verdict: Verdict, granted: int)
    ensures Judge(c, size, verdict, granted).received == c.received
  {
  }

  /** With nothing left that the cap could grow to, no event hands a byte over. */
  lemma SpentStep(b: Reading, e: Event)
    requires Sound(b) && b.cap.received >= Widest(b.cap)
    ensures Read(b, e).0.handed == b.handed && Read(b, e).0.cap.received >= Widest(Read(b, e).0.cap)
  {
    hide Arrived, Judge, Widest, Armed, Disarmed, OnTime;
    match e
    case Arrive(on, now, size, more, verdict, granted) =>
      if Pending(b, on) { ArriveSpent(EndRead(b, on, now), size, more, verdict, granted); }
    case RunOut(k, verdict) =>
      if Pending(b, Some(k)) { JudgeNarrows(b.cap, 0, verdict, 0); }
    case _ =>
  }

  lemma {:induction false} SpentRun(s: State, es: seq<Event>)
    requires Sound(s.body) && s.body.cap.received >= Widest(s.body.cap)
    ensures Exec(s, es).body.handed == s.body.handed
    ensures Exec(s, es).body.cap.received >= Widest(Exec(s, es).body.cap)
  {
    hide Sound, Read, Send, Widest;
    if es != [] {
      var init := es[..|es| - 1];
      SpentRun(s, init);
      RunIsSound(s, init);
      SpentStep(Exec(s, init).body, es[|es| - 1]);
    }
  }

  /**
   After a cut of either kind the app can still be handed a byte exactly when a read was pending at the cut and the body
   so far leaves room under the most its cap can yet come to.
   */
  lemma HandedAfterCutIff(s: State)
    requires s.body.cut && Sound(s.body)
    ensures (exists es: seq<Event> :: Exec(s, es).body.handed > s.body.handed) <==>
      !Idle(s.body) && s.body.cap.received < Widest(s.body.cap)
  {
    hide Exec, Sound, Widest;
    if !Idle(s.body) && s.body.cap.received < Widest(s.body.cap) {
      var on := if s.body.plainReads > 0 then None else Some(0);
      var e := Arrive(on, s.body.clocks.now, 1, true, Valid, s.body.cap.ceiling);
      ExecOne(s, e);
      RoomyArrival(s.body, on);
      assert Exec(s, [e]).body.handed > s.body.handed;
    } else {
      forall es: seq<Event> ensures Exec(s, es).body.handed == s.body.handed {
        if Idle(s.body) { NothingAfterCut(s, es); } else { SpentRun(s, es); }
      }
    }
  }

  lemma RoomyArrival(b: Reading, on: Option<nat>)
    requires Pending(b, on) && Sound(b) && b.cap.received < Widest(b.cap)
    ensures Read(b, Arrive(on, b.clocks.now, 1, true, Valid, b.cap.ceiling)).0.handed == b.handed + 1
  {
    hide Disarmed;
  }

  /** From any timed request: two reads awaited at once, and the first one's deadline cuts with the second pending. */
  lemma TwoReadsOutliveCut(s: State)
    requires Sound(s.body) && s.body.timed && !s.body.cut && Idle(s.body) && s.body.cap.credential.None?
    ensures var now := s.body.clocks.now;
      var t := Exec(s, [BeginRead(now), BeginRead(now), RunOut(0, Absent)]);
      t.body.cut && !Idle(t.body) && t.body.cap.received == s.body.cap.received && t.body.cap.cap == s.body.cap.cap
  {
    var now := s.body.clocks.now;
    var es := [BeginRead(now), BeginRead(now), RunOut(0, Absent)];
    assert es[..2] == [BeginRead(now), BeginRead(now)] && [BeginRead(now), BeginRead(now)][..1] == [BeginRead(now)];
    ExecOne(s, es[0]);
    var c := Armed(Armed(s.body.clocks, now), now);
    var until := now + WaitAt(DueAt(s.body.clocks, now), now);
    assert c.timers == [Timer(now, until), Timer(now, until)];
    var one := Step(s, es[0]);
    assert one.body == s.body.(clocks := Armed(s.body.clocks, now));
    assert Exec(s, es[..2]) == Step(one, es[1]);
    assert Step(one, es[1]).body == s.body.(clocks := c);
    hide Send, Armed;
    assert Disarmed(c, 0, until).timers == [Timer(now, until)];
  }

  /** An app that reads one message at a time. */
  ghost predicate Sequential(s: State, es: seq<Event>) {
    forall k | 0 <= k < |es| && es[k].BeginRead? :: Idle(Exec(s, es[..k]).body)
  }

  predicate OneRead(b: Reading) {
    |b.clocks.timers| + b.plainReads <= 1 && (b.cut ==> Idle(b))
  }

  lemma ReadKeepsOne(b: Reading, e: Event)
    requires OneRead(b) && (e.BeginRead? ==> Idle(b))
    ensures OneRead(Read(b, e).0)
  {
    hide Judge, Prove, Proven, Refusal, OnTime, WaitAt;
  }

  lemma SequentialPrefix(s: State, es: seq<Event>)
    requires Sequential(s, es) && es != []
    ensures Sequential(s, es[..|es| - 1])
    ensures es[|es| - 1].BeginRead? ==> Idle(Exec(s, es[..|es| - 1]).body)
  {
    hide Exec, Idle;
    var init := es[..|es| - 1];
    forall k | 0 <= k < |init| && init[k].BeginRead? ensures Idle(Exec(s, init[..k]).body) {
      assert es[k] == init[k] && es[..k] == init[..k];
    }
  }

  /** So for such an app no read is pending at a cut. */
  lemma {:induction false} SequentialReads(s: State, es: seq<Event>)
    requires Sequential(s, es) && OneRead(s.body)
    ensures OneRead(Exec(s, es).body)
  {
    hide Read, Send, OneRead, Sequential, Idle;
    if es != [] {
      SequentialPrefix(s, es);
      SequentialReads(s, es[..|es| - 1]);
      ReadKeepsOne(Exec(s, es[..|es| - 1]).body, es[|es| - 1]);
    }
  }

  lemma {:induction false} ExecConcat(s: State, a: seq<Event>, b: seq<Event>)
    ensures Exec(s, a + b) == Exec(Exec(s, a), b)
  {
    hide Step;
    if b == [] {
      assert a + b == a;
    } else {
      assert (a + b)[..|a + b| - 1] == a + b[..|b| - 1];
      ExecConcat(s, a, b[..|b| - 1]);
    }
  }

  /** An app that awaits one read at a time is given nothing after a cut, whatever happens from then on. */
  lemma CutIsFinal(s: State, es: seq<Event>, more: seq<Event>)
    requires OneRead(s.body) && Sequential(s, es) && Exec(s, es).body.cut
    ensures Exec(s, es + more).body == Exec(s, es).body
  {
    hide Exec, Sequential;
    SequentialReads(s, es);
    NothingAfterCut(Exec(s, es), more);
    ExecConcat(s, es, more);
  }

  // The deadline over a run

  /** Reads one after the other, each within what wait_s allowed it. */
  predicate TimedReads(ws: seq<Wait>) {
    && (forall i | 0 <= i < |ws| ::
          ws[i].begin <= ws[i].end <= ws[i].begin + WaitAt(ws[0].begin + WHOLE, ws[i].begin))
    && (forall i | 0 <= i < |ws| - 1 :: ws[i].end <= ws[i + 1].begin)
  }

  lemma {:induction false} WaitsWithinClock(ws: seq<Wait>)
    requires ws != [] && TimedReads(ws)
    ensures Waited(ws) <= MinR(ws[|ws| - 1].end, ws[0].begin + WHOLE) - ws[0].begin
  {
    var init, w := ws[..|ws| - 1], ws[|ws| - 1];
    if init != [] {
      WaitsWithinClock(init);
      assert ws[|ws| - 2].end <= w.begin;
    } else {
      assert Waited(init) == 0.0;
    }
  }

  /** The pending wait, should it last as long as it may. */
  function AtMost(c: Clocks): seq<Wait> {
    if |c.timers| == 1 then c.waits + [Wait(c.timers[0].begin, c.timers[0].until)] else c.waits
  }

  /** One read at a time: what the clocks hold, a pending wait taken to its end, is a list of timed reads. */
  predicate ClockOk(c: Clocks) {
    && |c.timers| <= 1
    && TimedReads(AtMost(c))
    && (AtMost(c) == [] <==> c.due.None?)
    && (c.due.Some? ==> c.due.value == AtMost(c)[0].begin + WHOLE)
    && (c.timers == [] && c.waits != [] ==> c.waits[|c.waits| - 1].end <= c.now)
    && (c.timers != [] ==> c.timers[0].begin <= c.now)
  }

  lemma ArmedOk(c: Clocks, now: real)
    requires ClockOk(c) && c.timers == [] && c.now <= now
    ensures ClockOk(Armed(c, now))
  {
    var d := Armed(c, now);
    assert AtMost(d) == c.waits + [Wait(now, now + WaitAt(DueAt(c, now), now))];
  }

  lemma DisarmedOk(c: Clocks, now: real)
    requires ClockOk(c) && |c.timers| == 1 && OnTime(c, now)
    ensures ClockOk(Disarmed(c, 0, now))
  {
    var d := Disarmed(c, 0, now);
    assert d.timers == [] && d.waits == c.waits + [Wait(c.timers[0].begin, now)];
    assert AtMost(c) == c.waits + [Wait(c.timers[0].begin, c.timers[0].until)];
    forall i | 0 <= i < |d.waits|
      ensures d.waits[i].begin == AtMost(c)[i].begin && d.waits[i].end <= AtMost(c)[i].end
    {
    }
  }

  lemma ReadKeepsClock(b: Reading, e: Event)
    requires ClockOk(b.clocks) && Sound(b) && OneRead(b) && (e.BeginRead? ==> Idle(b))
    ensures ClockOk(Read(b, e).0.clocks)
  {
    hide Judge, Prove, Proven, Refusal, ClockOk, Armed, Disarmed;
    match e
    case BeginRead(now) =>
      if !b.cut && OnTime(b.clocks, now) {
        if b.timed { ArmedOk(b.clocks, now); } else { TickOk(b.clocks, now); }
      }
    case Arrive(on, now, size, more, verdict, granted) => EndKeepsClock(b, on, now);
    case Hangup(on, now) => EndKeepsClock(b, on, now);
    case RunOut(k, verdict) => if Pending(b, Some(k)) { EndKeepsClock(b, Some(k), b.clocks.timers[k].until); }
    case _ =>
  }

  lemma EndKeepsClock(b: Reading, on: Option<nat>, now: real)
    requires ClockOk(b.clocks) && OneRead(b)
    ensures Pending(b, on) && OnTime(b.clocks, now) ==> ClockOk(EndRead(b, on, now).clocks)
  {
    hide ClockOk, Disarmed;
    if Pending(b, on) && OnTime(b.clocks, now) {
      if on.Some? { DisarmedOk(b.clocks, now); } else { TickOk(b.clocks, now); }
    }
  }

  lemma TickOk(c: Clocks, now: real)
    requires ClockOk(c) && c.timers == [] && c.now <= now
    ensures ClockOk(c.(now := now))
  {
    assert AtMost(c.(now := now)) == AtMost(c);
  }

  lemma {:induction false} RunKeepsClock(s: State, es: seq<Event>)
    requires ClockOk(s.body.clocks) && Sound(s.body) && OneRead(s.body) && Sequential(s, es)
    ensures ClockOk(Exec(s, es).body.clocks)
  {
    hide ClockOk, Sound, OneRead, Sequential, Idle, Read, Send;
    if es != [] {
      var init := es[..|es| - 1];
      SequentialPrefix(s, es);
      RunKeepsClock(s, init);
      RunIsSound(s, init);
      SequentialReads(s, init);
      ReadKeepsClock(Exec(s, init).body, es[|es| - 1]);
    }
  }

  /** Every wait of any run, ended or pending. */
  predicate GapsOk(c: Clocks) {
    && (forall i | 0 <= i < |c.waits| :: c.waits[i].end - c.waits[i].begin <= GAP)
    && (forall k | 0 <= k < |c.timers| :: c.timers[k].until - c.timers[k].begin <= GAP)
  }

  /** While the body is open, not cut and nothing proven, every read of a timed route is on a timer. */
  predicate Timed(b: Reading) {
    b.bodyOpen && !b.cut && !Proven(b.cap) ==> b.timed && b.plainReads == 0
  }

  lemma ArmedGaps(c: Clocks, now: real)
    requires GapsOk(c)
    ensures GapsOk(Armed(c, now))
  {
  }

  lemma DisarmedGaps(c: Clocks, k: nat, now: real)
    requires GapsOk(c) && OnTime(c, now) && k < |c.timers|
    ensures GapsOk(Disarmed(c, k, now))
  {
  }

  lemma EndReadGaps(b: Reading, on: Option<nat>, now: real)
    requires GapsOk(b.clocks) && OnTime(b.clocks, now) && Pending(b, on)
    ensures GapsOk(EndRead(b, on, now).clocks)
  {
    hide OnTime, Disarmed;
    if on.Some? { DisarmedGaps(b.clocks, on.value, now); }
  }

  lemma ReadKeepsGaps(b: Reading, e: Event)
    requires GapsOk(b.clocks)
    ensures GapsOk(Read(b, e).0.clocks)
  {
    hide OnTime, Judge, Prove, Refusal, Armed, EndRead, GapsOk;
    match e
    case BeginRead(now) => ArmedGaps(b.clocks, now); GapsOfNow(b.clocks, now);
    case Arrive(on, now, size, more, verdict, granted) =>
      if Pending(b, on) && OnTime(b.clocks, now) { EndReadGaps(b, on, now); }
    case Hangup(on, now) => if Pending(b, on) && OnTime(b.clocks, now) { EndReadGaps(b, on, now); }
    case RunOut(k, verdict) =>
      if Pending(b, Some(k)) && OnTime(b.clocks, b.clocks.timers[k].until) {
        EndReadGaps(b, Some(k), b.clocks.timers[k].until);
      }
    case _ =>
  }

  lemma GapsOfNow(c: Clocks, now: real)
    requires GapsOk(c)
    ensures GapsOk(c.(now := now))
  {
  }

  lemma ReadKeepsTimed(b: Reading, e: Event)
    requires Timed(b)
    ensures Timed(Read(b, e).0)
  {
    hide OnTime, Refusal, Armed, Disarmed;
  }

  lemma {:induction false} RunKeepsTimed(s: State, es: seq<Event>)
    requires Timed(s.body) && GapsOk(s.body.clocks)
    ensures Timed(Exec(s, es).body) && GapsOk(Exec(s, es).body.clocks)
  {
    hide Timed, GapsOk, Read, Send;
    if es != [] {
      RunKeepsTimed(s, es[..|es| - 1]);
      ReadKeepsTimed(Exec(s, es[..|es| - 1]).body, es[|es| - 1]);
      ReadKeepsGaps(Exec(s, es[..|es| - 1]).body, es[|es| - 1]);
    }
  }

  /**
   Over every run of a timed request, however its body trickles in: until the body is complete or a credential proves
   valid every read is on a timer; one wait is at most ten seconds; and for an app that reads one message at a time
   all waits together, a pending one taken to its end, are at most thirty.
   */
  lemma BodyWaitsAreBounded(route: Route, c: Settings, declared: Option<int>, chunked: bool, verdict: Verdict,
                            now: real, es: seq<Event>)
    requires route != WebhookRoute
    ensures var s := Begin(false, InitialCap(route, c, 0), declared, chunked, verdict, now);
      var b := Exec(s, es).body;
      && (b.bodyOpen && !b.cut && !Proven(b.cap) ==> b.timed && b.plainReads == 0)
      && (forall i | 0 <= i < |b.clocks.waits| :: b.clocks.waits[i].end - b.clocks.waits[i].begin <= GAP)
      && (Sequential(s, es) ==> Waited(AtMost(b.clocks)) <= WHOLE)
  {
    hide Exec, Sequential, Judge;
    var s := Begin(false, InitialCap(route, c, 0), declared, chunked, verdict, now);
    RunKeepsTimed(s, es);
    if Sequential(s, es) {
      BeginIsSound(route, c, 0, false, declared, chunked, verdict, now);
      RunKeepsClock(s, es);
      var ws := AtMost(Exec(s, es).body.clocks);
      if ws != [] { WaitsWithinClock(ws); }
    }
  }

  /** The state the app's sends and the middleware's answers share; `log` is what the server got. */
  class ExchangeState {
    var started: bool
    var status: int
    var answered: bool
    var cut: bool
    var bodyOpen: bool
    ghost var log: seq<Sent>

    /** The sending half between two awaits, with nothing held back. */
    ghost function View(): Response
      reads this
    {
      Response(started, answered, None, false, log, false)
    }

    constructor ()
      ensures View() == Response(false, false, None, false, [], false) && status == 0 && !cut && !bodyOpen
    {
      started, status, answered, cut, bodyOpen := false, 0, false, false, false;
      log := [];
    }

    /** forward(): a start is noted before it is sent, and closes a connection whose body is still open. */
    method Forward(own: bool, start: bool, status: int, close: bool)
      modifies this`started, this`status, this`log
      ensures started == (old(started) || start) && this.status == if start then status else old(this.status)
      ensures log == old(log) + [Sent(own, start, if start then status else 0, start && (close || bodyOpen))]
    {
      if start {
        started := true;
        this.status := status;
      }
      log := log + [Sent(own, start, if start then status else 0, start && (close || bodyOpen))];
    }

    /** An app message, uninterrupted: the step that takes it, then the step that lets a held start go. */
    method AppSend(start: bool, status: int)
      modifies this`started, this`status, this`log
      ensures View() == Send(Send(old(View()), Event.AppSend(start, status), bodyOpen, cut), Deliver, bodyOpen, cut)
    {
      if !answered {
        Forward(false, start, status, false);
      }
    }

    method AnswerWith(status: int, close: bool)
      modifies this`answered, this`started, this`status, this`log
      ensures View() == Send(Answer(old(View()), status, close || bodyOpen), DeliverOwnBody, bodyOpen, cut)
      ensures this.status == status
    {
      answered := true;
      Forward(true, true, status, close);
      Forward(true, false, 0, false);
    }

    /** The cut: an answer only when no response has started. */
    method CutWith(status: int)
      modifies this`cut, this`answered, this`started, this`status, this`log
      ensures cut && View() == Send(CutAnswer(old(View()), Some(status)), DeliverOwnBody, bodyOpen, cut)
    {
      cut := true;
      if !started {
        AnswerWith(status, true);
      }
    }
  }

  /** One request's objects, and what its two receive closures do with a message or a spent timer. */
  class Request {
    const x: ExchangeState
    const cap: BodyCap
    const deadline: BodyDeadline
    ghost var now: real
    ghost var timers: seq<Timer>
    ghost var waits: seq<Wait>
    ghost var plainReads: nat
    ghost var handed: int

    ghost function Clock(): Clocks
      reads this, deadline
    {
      Clocks(now, if deadline.due == 0.0 then None else Some(deadline.due), timers, waits)
    }

    ghost function View(): Reading
      reads this, x, cap, deadline
    {
      Reading(x.cut, x.bodyOpen, deadline.timed, cap.View(), Clock(), plainReads, handed)
    }

    constructor (x: ExchangeState, cap: BodyCap, deadline: BodyDeadline, now: real)
      ensures this.x == x && this.cap == cap && this.deadline == deadline
      ensures handed == 0 && timers == [] && waits == [] && plainReads == 0 && this.now == now
    {
      this.x, this.cap, this.deadline := x, cap, deadline;
      handed, timers, waits, plainReads, this.now := 0, [], [], 0, now;
    }

    /** capped_receive() up to its await: a disconnect after a cut, else a read on a timer or without one. */
    method BeginReading(t: real) returns (awaits: bool, wait: real)
      requires t >= 0.0 && OnTime(Clock(), t)
      modifies this`now, this`timers, this`plainReads, deadline`due
      ensures awaits == !x.cut && View() == Read(old(View()), BeginRead(t)).0
      ensures awaits && deadline.timed ==> timers == old(timers) + [Timer(t, t + wait)]
    {
      awaits, wait := !x.cut, 0.0;
      if awaits {
        if deadline.timed {
          wait := deadline.WaitS(t);
          timers := timers + [Timer(t, t + wait)];
        } else {
          plainReads := plainReads + 1;
        }
        now := t;
      }
    }

    /** The awaited read ended at t. */
    ghost method EndReading(on: Option<nat>, t: real)
      requires Pending(View(), on) && OnTime(Clock(), t)
      modifies this`now, this`timers, this`waits, this`plainReads
      ensures View() == EndRead(old(View()), on, t)
    {
      if on.Some? {
        waits := waits + [Wait(timers[on.value].begin, t)];
        timers := timers[..on.value] + timers[on.value + 1..];
      } else {
        plainReads := plainReads - 1;
      }
      now := t;
    }

    /** The rest of capped_receive(): a body message handed to the app, or cut and answered. */
    method Receive(size: nat, more: bool, verdict: Verdict, granted: int) returns (given: bool)
      requires cap.Valid()
      modifies this`handed, x, cap, deadline`timed
      ensures cap.Valid()
      ensures var (body, cut) := Arrived(old(View()), size, more, verdict, granted);
        View() == body && given == cut.None? && x.View() == Cutting(old(x.View()), cut, x.bodyOpen)
    {
      hide Judge, CutAnswer, Send;
      if !more {
        deadline.timed := false;
        x.bodyOpen := false;
      }
      cap.received := cap.received + size;
      var over := cap.Exceeded(cap.received, verdict, granted);
      if over {
        x.CutWith(if cap.credential == Some(Verdict.Invalid) then 401 else 413);
      } else {
        handed := handed + size;
      }
      given := !over;
    }

    /** A body message came for a pending read. */
    method Received(ghost on: Option<nat>, ghost t: real, size: nat, more: bool, verdict: Verdict, granted: int)
      returns (given: bool)
      requires cap.Valid() && Pending(View(), on) && OnTime(Clock(), t)
      modifies this`now, this`timers, this`waits, this`plainReads, this`handed, x, cap, deadline`timed
      ensures cap.Valid()
      ensures var (body, cut) := Read(old(View()), Arrive(on, t, size, more, verdict, granted));
        View() == body && given == cut.None? && x.View() == Cutting(old(x.View()), cut, x.bodyOpen)
    {
      hide Arrived, Cutting, EndRead, OnTime, Pending;
      EndReading(on, t);
      given := Receive(size, more, verdict, granted);
    }

    /** timed_receive() when its timer ran out: a proven credential reads on untimed, anything else is cut. */
    method RanOut(ghost k: nat, verdict: Verdict) returns (readsOn: bool)
      requires cap.Valid() && k < |timers| && OnTime(Clock(), timers[k].until)
      modifies this`now, this`timers, this`waits, this`plainReads, x, cap, deadline`timed
      ensures cap.Valid()
      ensures var (body, cut) := Read(old(View()), RunOut(k, verdict));
        View() == body && readsOn == cut.None? && x.View() == Cutting(old(x.View()), cut, x.bodyOpen)
    {
      hide Prove, CutAnswer, Send, OnTime;
      EndReading(Some(k), timers[k].until);
      deadline.timed := false;
      readsOn := cap.ProvenNow(verdict);
      if readsOn {
        plainReads := plainReads + 1;
      } else {
        x.CutWith(408);
      }
    }
  }
}
