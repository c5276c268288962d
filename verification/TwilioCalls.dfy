/**
 Calls over Twilio: a call's status driven by its origination, its media sockets, its status callbacks, the
 dial watchdog and the waiting caller, in any order. A step runs from one await to the next.
 */
module TwilioCalls {
  import opened Wrappers

  datatype Status = Registered | Dialing | Connected | Completed | Failed

  predicate Terminal(s: Status) { s == Completed || s == Failed }

  /** `due`: when the armed watchdog fires, from the moment the origination returned. */
  datatype Call = Call(uuid: Name, status: Status, due: Option<real>)

  /** A claim's life, and the longest a call may stay DIALING: the watchdog's sleep and the loop's lateness. */
  datatype Timing = Timing(claimTtl: real, dialLimit: real)

  const PENDING_TTL := 60.0
  const CLAIM_TTL := 700.0
  const WATCHDOG := 75.0

  /** A uuid4 or a random session token: only ever compared. */
  type Name = nat

  type Counter = map<Name, nat>

  function Count(c: Counter, key: Name): nat { if key in c then c[key] else 0 }

  function Bump(c: Counter, key: Name): Counter { c[key := Count(c, key) + 1] }

  datatype State = State(
    now: real,
    calls: map<Name, Call>,          // call id -> call
    index: map<Name, Name>,        // audio uuid -> call id
    pending: map<Name, real>,        // inbound token -> expiry
    claims: map<Name, real>,         // claimed uuid -> expiry
    admitted: Counter,                 // media sockets let past the token check, per token or uuid
    pipelines: Counter,                // pipelines attached, per uuid
    reports: Counter,                  // call-log rows, per call id
    issued: set<Name>)               // every id, uuid and token made so far

  datatype Event =
    | Register(id: Name, uuid: Name)
    | OriginateOk(id: Name)
    | OriginateFailed(id: Name)
    | Webhook(token: Name)
    | Media(presented: Option<Name>, routed: bool, room: bool)
    | StatusCallback(uuid: Name, word: string)
    | WatchdogFires(id: Name)
    | PipelineEnds(id: Name, ok: bool)
    | WaitTimesOut(id: Name)
    | Cleanup(id: Name)
    | Tick(dt: real)

  /** Expired entries go on every access. */
  function Sweep(items: map<Name, real>, now: real): map<Name, real> {
    map k | k in items && items[k] > now :: items[k]
  }

  /** update_status: the log row goes out on the edge into a terminal status only. */
  function Update(s: State, id: Name, status: Status): State {
    if id !in s.calls then s
    else
      s.(calls := s.calls[id := s.calls[id].(status := status)],
         reports := if Terminal(status) && !Terminal(s.calls[id].status) then Bump(s.reports, id) else s.reports)
  }

  function Lookup(s: State, uuid: Name): Option<Name> {
    if uuid in s.index && s.index[uuid] in s.calls then Some(s.index[uuid]) else None
  }

  function MediaOutbound(s: State, id: Name, uuid: Name, routed: bool, room: bool, t: Timing): State
    requires id in s.calls
  {
    var swept := Sweep(s.claims, s.now);
    if s.calls[id].status != Dialing then s
    else if uuid in swept then s.(claims := swept)
    else
      var c := s.(claims := swept[uuid := s.now + t.claimTtl], admitted := Bump(s.admitted, uuid));
      if routed && room then Update(c, id, Connected).(pipelines := Bump(s.pipelines, uuid)) else c
  }

  function MediaInbound(s: State, token: Name): State {
    var swept := Sweep(s.pending, s.now);
    if token in swept then s.(pending := swept - {token}, admitted := Bump(s.admitted, token))
    else s.(pending := swept)
  }

  /** The callback words that end a call nobody answered. */
  predicate Ended(word: string) {
    word in {"busy", "no-answer", "failed", "canceled", "completed"}
  }

  predicate WatchdogsInTime(s: State, until: real) {
    forall id | id in s.calls && s.calls[id].due.Some? :: until <= s.calls[id].due.value
  }

  function AddCall(s: State, id: Name, uuid: Name): State {
    s.(calls := s.calls[id := Call(uuid, Registered, None)], index := s.index[uuid := id],
       issued := s.issued + {id, uuid})
  }

  function StartRinging(s: State, id: Name, t: Timing): State
    requires id in s.calls
  {
    s.(calls := s.calls[id := s.calls[id].(status := Dialing, due := Some(s.now + t.dialLimit))])
  }

  function IssueToken(s: State, token: Name): State {
    s.(pending := Sweep(s.pending, s.now)[token := s.now + PENDING_TTL], issued := s.issued + {token})
  }

  function Disarm(s: State, id: Name): State
    requires id in s.calls
  {
    var d := s.(calls := s.calls[id := s.calls[id].(due := None)]);
    if s.calls[id].status == Dialing then Update(d, id, Failed) else d
  }

  function Remove(s: State, id: Name): State
    requires id in s.calls
  {
    s.(calls := s.calls - {id}, index := s.index - {s.calls[id].uuid})
  }

  function Step(s: State, e: Event, t: Timing): State {
    match e
    case Register(id, uuid) =>
      if id in s.issued || uuid in s.issued || id == uuid then s else AddCall(s, id, uuid)
    case OriginateOk(id) =>
      if id in s.calls && s.calls[id].status == Registered then StartRinging(s, id, t) else s
    case OriginateFailed(id) =>
      if id in s.calls && s.calls[id].status == Registered then Update(s, id, Failed) else s
    case Webhook(token) =>
      if token in s.issued then s else IssueToken(s, token)
    case Media(token, routed, room) =>
      if token.None? then s
      else if Lookup(s, token.value).Some?
      then MediaOutbound(s, Lookup(s, token.value).value, token.value, routed, room, t)
      else MediaInbound(s, token.value)
    case StatusCallback(uuid, word) =>
      if Lookup(s, uuid).Some? && s.calls[Lookup(s, uuid).value].status == Dialing && Ended(word)
      then Update(s, Lookup(s, uuid).value, Failed)
      else s
    case WatchdogFires(id) =>
      if id in s.calls && s.calls[id].due.Some? then Disarm(s, id) else s
    case PipelineEnds(id, ok) =>
      if id in s.calls && Count(s.pipelines, s.calls[id].uuid) > 0
      then Update(s, id, if ok then Completed else Failed)
      else s
    case WaitTimesOut(id) =>
      if id in s.calls && s.calls[id].status != Registered then Update(s, id, Failed) else s
    case Cleanup(id) =>
      if id in s.calls && Terminal(s.calls[id].status) then Remove(s, id) else s
    case Tick(dt) =>
      if dt >= 0.0 && WatchdogsInTime(s, s.now + dt) then s.(now := s.now + dt) else s
  }

  const START := State(0.0, map[], map[], map[], map[], map[], map[], map[], {})

  function Exec(es: seq<Event>, t: Timing): State {
    if es == [] then START else Step(Exec(es[..|es| - 1], t), es[|es| - 1], t)
  }

  // What every interleaving keeps

  /**
   One call: found by its uuid, reported exactly when terminal, with no pipeline before it connects; while it dials its
   watchdog is armed, and where claims outlive it a socket the call admitted holds a claim that does.
   */
  predicate CallOk(s: State, id: Name, t: Timing)
    requires id in s.calls
  {
    var c := s.calls[id];
    var sockets, pipelines := Count(s.admitted, c.uuid), Count(s.pipelines, c.uuid);
    && c.uuid in s.index && s.index[c.uuid] == id
    && id in s.issued && c.uuid in s.issued && c.uuid !in s.pending
    && Count(s.reports, id) == (if Terminal(c.status) then 1 else 0)
    && pipelines == (if c.status in {Registered, Dialing} then 0 else pipelines)
    && (c.status == Registered ==> sockets == 0)
    && (c.status == Dialing ==> c.due.Some?)
    && (Outlives(t) && c.due.Some? ==> s.now <= c.due.value <= s.now + t.dialLimit)
    && (Outlives(t) && c.status == Dialing && sockets > 0 ==> c.uuid in s.claims && s.claims[c.uuid] > c.due.value)
  }

  /** Every counter stands at one at most, and names something issued. */
  predicate AtMostOne(c: Counter, issued: set<Name>) {
    forall u | u in c :: c[u] <= 1 && u in issued
  }

  predicate Indexed(s: State) {
    forall u | u in s.index :: s.index[u] in s.calls && s.calls[s.index[u]].uuid == u
  }

  /** An inbound token still pending has admitted no socket. */
  predicate Unspent(s: State) {
    forall u | u in s.pending :: Count(s.admitted, u) == 0 && u in s.issued
  }

  predicate CallsOk(s: State, t: Timing) {
    forall id | id in s.calls :: CallOk(s, id, t)
  }

  predicate SingleGate(s: State) {
    forall u | u in s.admitted :: s.admitted[u] <= 1
  }

  predicate CountersOk(s: State, t: Timing) {
    && AtMostOne(s.pipelines, s.issued) && AtMostOne(s.reports, s.issued)
    && (forall u | u in s.admitted :: u in s.issued)
    && (Outlives(t) ==> SingleGate(s))
  }

  /** Whatever the timing; what is said of claims and sockets holds where claims outlive the watchdog. */
  predicate Safe(s: State, t: Timing) {
    Indexed(s) && Unspent(s) && CallsOk(s, t) && CountersOk(s, t)
  }

  predicate Outlives(t: Timing) {
    0.0 <= t.dialLimit < t.claimTtl
  }

  lemma BumpCounts(c: Counter, key: Name, k: Name)
    ensures Count(Bump(c, key), k) == Count(c, k) + if k == key then 1 else 0
  {
  }

  lemma AddCallIsSafe(s: State, id: Name, uuid: Name, t: Timing)
    requires Safe(s, t) && id !in s.issued && uuid !in s.issued && id != uuid
    ensures Safe(AddCall(s, id, uuid), t)
  {
    var s' := AddCall(s, id, uuid);
    assert uuid !in s.pending;
    forall i | i in s'.calls ensures CallOk(s', i, t) {
      if i in s.calls { assert CallOk(s, i, t); }
    }
    forall u | u in s'.index ensures s'.index[u] in s'.calls && s'.calls[s'.index[u]].uuid == u {
      if u in s.index { assert CallOk(s, s.index[u], t); }
    }
  }

  lemma StartRingingIsSafe(s: State, id: Name, t: Timing)
    requires Safe(s, t) && id in s.calls && s.calls[id].status == Registered
    ensures Safe(StartRinging(s, id, t), t)
  {
    var s' := StartRinging(s, id, t);
    forall i | i in s'.calls ensures CallOk(s', i, t) {
      assert CallOk(s, i, t);
    }
  }

  lemma EndingIsSafe(s: State, id: Name, status: Status, t: Timing)
    requires Safe(s, t) && id in s.calls && Terminal(status)
    ensures Safe(Update(s, id, status), t)
  {
    hide AtMostOne, Count, Bump;
    var s' := Update(s, id, status);
    forall i | i in s'.calls ensures CallOk(s', i, t) {
      assert CallOk(s, i, t);
      BumpCounts(s.reports, id, i);
    }
    assert CallOk(s, id, t);
    if !Terminal(s.calls[id].status) { BumpIsAtMostOne(s.reports, id, s.issued); }
  }

  lemma BumpIsAtMostOne(c: Counter, key: Name, issued: set<Name>)
    requires AtMostOne(c, issued) && Count(c, key) == 0 && key in issued
    ensures AtMostOne(Bump(c, key), issued)
  {
  }

  lemma ConnectingKeepsCall(s: State, id: Name, uuid: Name, i: Name, t: Timing)
    requires id in s.calls && s.calls[id].status == Dialing && s.calls[id].uuid == uuid
    requires i in s.calls && CallOk(s, i, t) && CallOk(s, id, t)
    ensures CallOk(Update(s, id, Connected).(pipelines := Bump(s.pipelines, uuid)), i, t)
  {
    BumpCounts(s.pipelines, uuid, s.calls[i].uuid);
    hide Bump, Count;
  }

  lemma ConnectingIsSafe(s: State, id: Name, uuid: Name, t: Timing)
    requires Safe(s, t) && id in s.calls && s.calls[id].status == Dialing && s.calls[id].uuid == uuid
    ensures Safe(Update(s, id, Connected).(pipelines := Bump(s.pipelines, uuid)), t)
  {
    var s' := Update(s, id, Connected).(pipelines := Bump(s.pipelines, uuid));
    assert CallOk(s, id, t);
    assert Count(s.pipelines, uuid) == 0 && uuid in s.issued;
    hide AtMostOne, Count, Bump, CallOk;
    forall i | i in s'.calls ensures CallOk(s', i, t) {
      assert CallOk(s, i, t);
      ConnectingKeepsCall(s, id, uuid, i, t);
    }
    BumpIsAtMostOne(s.pipelines, uuid, s.issued);
  }

  lemma IssueTokenIsSafe(s: State, token: Name, t: Timing)
    requires Safe(s, t) && token !in s.issued
    ensures Safe(IssueToken(s, token), t)
  {
    var s' := IssueToken(s, token);
    forall i | i in s'.calls ensures CallOk(s', i, t) {
      assert CallOk(s, i, t);
    }
    assert token !in s.admitted;
  }

  /** An unclaimed dialing call admitted no socket yet: a claim it had would not have expired. */
  lemma ClaimIsSafe(s: State, id: Name, uuid: Name, t: Timing)
    requires Safe(s, t) && id in s.calls && s.calls[id].status == Dialing && s.calls[id].uuid == uuid
    requires uuid !in Sweep(s.claims, s.now)
    ensures Safe(s.(claims := Sweep(s.claims, s.now)[uuid := s.now + t.claimTtl],
                    admitted := Bump(s.admitted, uuid)), t)
  {
    hide AtMostOne, Count, Bump;
    var s' := s.(claims := Sweep(s.claims, s.now)[uuid := s.now + t.claimTtl], admitted := Bump(s.admitted, uuid));
    assert CallOk(s, id, t) && (Outlives(t) ==> Count(s.admitted, uuid) == 0);
    forall i | i in s'.calls ensures CallOk(s', i, t) {
      assert CallOk(s, i, t);
      BumpCounts(s.admitted, uuid, s.calls[i].uuid);
    }
    forall u | u in s'.pending ensures Count(s'.admitted, u) == 0 && u in s'.issued {
      BumpCounts(s.admitted, uuid, u);
    }
    BumpSocket(s.admitted, uuid);
  }

  lemma BumpSocket(c: Counter, key: Name)
    ensures forall u | u in Bump(c, key) :: u in c || u == key
    ensures Count(c, key) == 0 && (forall u | u in c :: c[u] <= 1) ==>
      forall u | u in Bump(c, key) :: Bump(c, key)[u] <= 1
  {
  }

  lemma SweptClaimsAreSafe(s: State, t: Timing)
    requires Safe(s, t)
    ensures Safe(s.(claims := Sweep(s.claims, s.now)), t)
  {
    var s' := s.(claims := Sweep(s.claims, s.now));
    forall i | i in s'.calls ensures CallOk(s', i, t) {
      assert CallOk(s, i, t);
    }
  }

  lemma MediaOutboundIsSafe(s: State, id: Name, uuid: Name, routed: bool, room: bool, t: Timing)
    requires Safe(s, t) && id in s.calls && s.calls[id].uuid == uuid
    ensures Safe(MediaOutbound(s, id, uuid, routed, room, t), t)
  {
    hide Update, Bump, Count, Sweep, Safe;
    var swept := Sweep(s.claims, s.now);
    if s.calls[id].status == Dialing {
      if uuid in swept {
        SweptClaimsAreSafe(s, t);
      } else {
        ClaimIsSafe(s, id, uuid, t);
        var c := s.(claims := swept[uuid := s.now + t.claimTtl], admitted := Bump(s.admitted, uuid));
        ConnectingIsSafe(c, id, uuid, t);
      }
    }
  }

  lemma MediaInboundIsSafe(s: State, token: Name, t: Timing)
    requires Safe(s, t) && token !in s.index
    ensures Safe(MediaInbound(s, token), t)
  {
    hide AtMostOne, Count, Bump;
    SweptTokensAreSafe(s, t);
    var swept := s.(pending := Sweep(s.pending, s.now));
    if token in swept.pending {
      var s' := MediaInbound(s, token);
      forall i | i in s'.calls ensures CallOk(s', i, t) {
        assert CallOk(swept, i, t);
        BumpCounts(s.admitted, token, s.calls[i].uuid);
      }
      forall u | u in s'.pending ensures Count(s'.admitted, u) == 0 && u in s'.issued {
        BumpCounts(s.admitted, token, u);
      }
      BumpSocket(s.admitted, token);
    }
  }

  lemma SweptTokensAreSafe(s: State, t: Timing)
    requires Safe(s, t)
    ensures Safe(s.(pending := Sweep(s.pending, s.now)), t)
  {
    hide AtMostOne, Count;
    var s' := s.(pending := Sweep(s.pending, s.now));
    forall i | i in s'.calls ensures CallOk(s', i, t) {
      assert CallOk(s, i, t);
    }
  }

  lemma DropDueIsSafe(s: State, id: Name, t: Timing)
    requires Safe(s, t) && id in s.calls && s.calls[id].status != Dialing
    ensures Safe(s.(calls := s.calls[id := s.calls[id].(due := None)]), t)
  {
    hide AtMostOne, Count;
    var s' := s.(calls := s.calls[id := s.calls[id].(due := None)]);
    forall i | i in s'.calls ensures CallOk(s', i, t) {
      assert CallOk(s, i, t);
    }
  }

  lemma DisarmIsSafe(s: State, id: Name, t: Timing)
    requires Safe(s, t) && id in s.calls
    ensures Safe(Disarm(s, id), t)
  {
    hide Safe, Count, Bump;
    if s.calls[id].status == Dialing {
      EndingIsSafe(s, id, Failed, t);
      var e := Update(s, id, Failed);
      DropDueIsSafe(e, id, t);
      assert e.calls[id := e.calls[id].(due := None)] == Disarm(s, id).calls;
    } else {
      DropDueIsSafe(s, id, t);
    }
  }

  lemma RemoveIsSafe(s: State, id: Name, t: Timing)
    requires Safe(s, t) && id in s.calls
    ensures Safe(Remove(s, id), t)
  {
    var s' := Remove(s, id);
    assert CallOk(s, id, t);
    forall i | i in s'.calls ensures CallOk(s', i, t) {
      assert CallOk(s, i, t);
    }
  }

  lemma TickIsSafe(s: State, dt: real, t: Timing)
    requires Safe(s, t) && dt >= 0.0 && WatchdogsInTime(s, s.now + dt)
    ensures Safe(s.(now := s.now + dt), t)
  {
    var s' := s.(now := s.now + dt);
    forall i | i in s'.calls ensures CallOk(s', i, t) {
      assert CallOk(s, i, t);
    }
  }

  lemma StepIsSafe(s: State, e: Event, t: Timing)
    requires Safe(s, t)
    ensures Safe(Step(s, e, t), t)
  {
    if e.Media? && e.presented.Some? {
      PresentedIsSafe(s, e.presented.value, e.routed, e.room, t);
    } else {
      QuietStepIsSafe(s, e, t);
    }
  }

  lemma PresentedIsSafe(s: State, token: Name, routed: bool, room: bool, t: Timing)
    requires Safe(s, t)
    ensures Safe(Step(s, Media(Some(token), routed, room), t), t)
  {
    assert Indexed(s);
    hide Safe, MediaOutbound, MediaInbound;
    if Lookup(s, token).Some? {
      MediaOutboundIsSafe(s, Lookup(s, token).value, token, routed, room, t);
    } else {
      MediaInboundIsSafe(s, token, t);
    }
  }

  lemma QuietStepIsSafe(s: State, e: Event, t: Timing)
    requires Safe(s, t) && (e.Media? ==> e.presented.None?)
    ensures Safe(Step(s, e, t), t)
  {
    hide Safe, Ended, AddCall, StartRinging, IssueToken, Disarm, Remove, Update, Count, WatchdogsInTime;
    match e
    case Register(id, uuid) =>
      if id !in s.issued && uuid !in s.issued && id != uuid { AddCallIsSafe(s, id, uuid, t); }
    case OriginateOk(id) =>
      if id in s.calls && s.calls[id].status == Registered { StartRingingIsSafe(s, id, t); }
    case Webhook(token) => if token !in s.issued { IssueTokenIsSafe(s, token, t); }
    case StatusCallback(uuid, word) =>
      if Lookup(s, uuid).Some? { EndingIsSafe(s, Lookup(s, uuid).value, Failed, t); }
    case WatchdogFires(id) => if id in s.calls { DisarmIsSafe(s, id, t); }
    case Cleanup(id) => if id in s.calls { RemoveIsSafe(s, id, t); }
    case Tick(dt) => if dt >= 0.0 && WatchdogsInTime(s, s.now + dt) { TickIsSafe(s, dt, t); }
    case PipelineEnds(id, ok) => if id in s.calls { EndingIsSafe(s, id, if ok then Completed else Failed, t); }
    case OriginateFailed(id) => if id in s.calls { EndingIsSafe(s, id, Failed, t); }
    case WaitTimesOut(id) => if id in s.calls { EndingIsSafe(s, id, Failed, t); }
    case Media(presented, routed, room) =>
  }

  lemma {:induction false} RunIsSafe(es: seq<Event>, t: Timing)
    ensures Safe(Exec(es, t), t)
  {
    if es != [] {
      RunIsSafe(es[..|es| - 1], t);
      StepIsSafe(Exec(es[..|es| - 1], t), es[|es| - 1], t);
    }
  }

  /**
   Over every interleaving of webhooks, media sockets, callbacks, the watchdog, originations and waits, and whatever
   the timing: a call gets one pipeline at most and one call-log row at most, and has that row exactly when it is
   terminal. Where a claim outlives the watchdog a token or uuid admits one media socket at most, too.
   */
  lemma SingleAttachSingleReport(es: seq<Event>, t: Timing)
    ensures var s := Exec(es, t);
      && (forall u | u in s.pipelines :: s.pipelines[u] <= 1)
      && (forall id | id in s.reports :: s.reports[id] <= 1)
      && (forall id | id in s.calls :: id in s.reports && s.reports[id] == 1 <==> Terminal(s.calls[id].status))
      && (Outlives(t) ==> SingleGate(s))
  {
    hide Exec;
    RunIsSafe(es, t);
    var s := Exec(es, t);
    forall id | id in s.calls ensures id in s.reports && s.reports[id] == 1 <==> Terminal(s.calls[id].status) {
      assert CallOk(s, id, t);
    }
  }

  /** The constants of the daemon: a 700 s claim against the 75 s watchdog, for a loop up to 625 s late. */
  lemma DaemonTimingOutlives(lateness: real)
    requires 0.0 <= lateness
    ensures Outlives(Timing(CLAIM_TTL, WATCHDOG + lateness)) <==> lateness < 625.0
  {
  }

  /** The gate is single exactly when a claim outlives the watchdog. */
  lemma SingleGateIff(t: Timing)
    requires 0.0 <= t.claimTtl && 0.0 <= t.dialLimit
    ensures (forall es :: SingleGate(Exec(es, t))) <==> Outlives(t)
  {
    if Outlives(t) {
      forall es ensures SingleGate(Exec(es, t)) {
        SingleAttachSingleReport(es, t);
      }
    } else {
      assert !SingleGate(Exec(TwoSockets(t), t)) by { TwoSocketsPass(t); }
    }
  }

  /** A claim burnt by a socket that found no room, and a second socket once it expired. */
  function TwoSockets(t: Timing): seq<Event> {
    [Register(1, 2), OriginateOk(1), Media(Some(2), true, false), Tick(t.claimTtl), Media(Some(2), true, false)]
  }

  lemma TwoSocketsPass(t: Timing)
    requires 0.0 <= t.claimTtl <= t.dialLimit
    ensures var s := Exec(TwoSockets(t), t); 2 in s.admitted && s.admitted[2] == 2
  {
    var es := TwoSockets(t);
    var dialing :=
      START.(calls := map[1 := Call(2, Dialing, Some(t.dialLimit))], index := map[2 := 1], issued := {1, 2});
    assert es[..4][..3][..2][..1][..0] == [];
    assert es[..4][..3][..2][..1] == [es[0]];
    assert es[..4][..3][..2] == [es[0], es[1]];
    assert Exec([es[0]], t) ==
      START.(calls := map[1 := Call(2, Registered, None)], index := map[2 := 1], issued := {1, 2});
    assert Exec(es[..4][..3][..2], t) == dialing;
    var claimed := dialing.(claims := map[2 := t.claimTtl], admitted := map[2 := 1]);
    assert Sweep(map[], 0.0) == map[];
    assert Exec(es[..4][..3], t) == claimed;
    assert Exec(es[..4], t) == claimed.(now := t.claimTtl);
    assert Sweep(claimed.claims, t.claimTtl) == map[];
  }

  /** What may end a connected call: its own pipeline, or the caller that waits for it. */
  predicate Ends(e: Event, id: Name) { (e.PipelineEnds? || e.WaitTimesOut?) && e.id == id }

  predicate IsConnected(s: State, id: Name) {
    id in s.calls && id in s.issued && s.calls[id].status == Connected
  }

  lemma UpdateKeepsConnected(s: State, id: Name, other: Name, status: Status)
    requires IsConnected(s, id) && other != id
    ensures IsConnected(Update(s, other, status), id)
  {
  }

  lemma MediaKeepsConnected(s: State, other: Name, uuid: Name, routed: bool, room: bool, t: Timing, id: Name)
    requires IsConnected(s, id) && other in s.calls
    ensures IsConnected(MediaOutbound(s, other, uuid, routed, room, t), id)
  {
    hide Sweep, Bump, Count;
  }

  lemma DisarmKeepsConnected(s: State, other: Name, id: Name)
    requires IsConnected(s, id) && other in s.calls
    ensures IsConnected(Disarm(s, other), id)
  {
    hide Bump, Count;
  }

  lemma ConnectedStep(s: State, e: Event, t: Timing, id: Name)
    requires IsConnected(s, id) && !Ends(e, id)
    ensures IsConnected(Step(s, e, t), id)
  {
    hide Update, MediaOutbound, Disarm, Sweep, Bump, Count, WatchdogsInTime, Ended;
    match e
    case Media(presented, routed, room) =>
      if presented.Some? && Lookup(s, presented.value).Some? {
        MediaKeepsConnected(s, Lookup(s, presented.value).value, presented.value, routed, room, t, id);
      }
    case StatusCallback(uuid, word) =>
      if Lookup(s, uuid).Some? && Lookup(s, uuid).value != id {
        UpdateKeepsConnected(s, id, Lookup(s, uuid).value, Failed);
      }
    case WatchdogFires(other) => if other in s.calls { DisarmKeepsConnected(s, other, id); }
    case PipelineEnds(other, ok) => UpdateKeepsConnected(s, id, other, if ok then Completed else Failed);
    case OriginateFailed(other) => if other != id { UpdateKeepsConnected(s, id, other, Failed); }
    case WaitTimesOut(other) => UpdateKeepsConnected(s, id, other, Failed);
    case _ =>
  }

  lemma ConnectedIsIssued(s: State, t: Timing, id: Name)
    requires Safe(s, t) && id in s.calls && s.calls[id].status == Connected
    ensures IsConnected(s, id)
  {
    assert CallOk(s, id, t);
  }

  /** Once connected a call stays so through every callback, watchdog, socket and webhook, in any order. */
  lemma {:induction false} ConnectedStands(es: seq<Event>, more: seq<Event>, t: Timing, id: Name)
    requires id in Exec(es, t).calls && Exec(es, t).calls[id].status == Connected
    requires forall i | 0 <= i < |more| :: !Ends(more[i], id)
    ensures id in Exec(es + more, t).calls && Exec(es + more, t).calls[id].status == Connected
    decreases |more|
  {
    hide Step, Safe;
    if more == [] {
      assert es + more == es;
    } else {
      var init, e := more[..|more| - 1], more[|more| - 1];
      ConnectedStands(es, init, t, id);
      RunIsSafe(es + init, t);
      assert (es + more)[..|es + more| - 1] == es + init;
      ConnectedIsIssued(Exec(es + init, t), t, id);
      ConnectedStep(Exec(es + init, t), e, t, id);
    }
  }

  // What connects a call, and what ends one

  /** A claim or a token stands until its time. */
  predicate Unexpired(items: map<Name, real>, key: Name, now: real) { key in items && items[key] > now }

  /** A media socket connects the call it names exactly when that dials unclaimed and the socket has route and room. */
  lemma MediaConnectsIff(s: State, uuid: Name, id: Name, routed: bool, room: bool, t: Timing)
    requires Lookup(s, uuid) == Some(id)
    ensures Step(s, Media(Some(uuid), routed, room), t).index == s.index
    ensures var s' := Step(s, Media(Some(uuid), routed, room), t);
      if s.calls[id].status == Dialing && !Unexpired(s.claims, uuid, s.now) && routed && room then
        && s'.calls == s.calls[id := s.calls[id].(status := Connected)]
        && Count(s'.pipelines, uuid) == Count(s.pipelines, uuid) + 1
        && Unexpired(s'.claims, uuid, s.now) == (t.claimTtl > 0.0)
      else s'.calls == s.calls && s'.pipelines == s.pipelines
  {
  }

  /** A callback fails a dialing call exactly with one of five words; any other, or any later one, changes nothing. */
  lemma CallbackFailsIff(s: State, uuid: Name, id: Name, word: string, t: Timing)
    requires Lookup(s, uuid) == Some(id)
    ensures var s' := Step(s, StatusCallback(uuid, word), t);
      if s.calls[id].status == Dialing
        && (word == "busy" || word == "no-answer" || word == "failed" || word == "canceled" || word == "completed")
      then
        && s'.calls == s.calls[id := s.calls[id].(status := Failed)]
        && Count(s'.reports, id) == Count(s.reports, id) + 1
      else s' == s
  {
  }

  /** A pipeline that ends gives its call its own end. */
  lemma PipelineEndDecides(s: State, id: Name, ok: bool, t: Timing)
    requires id in s.calls && Count(s.pipelines, s.calls[id].uuid) > 0
    ensures var c := Step(s, PipelineEnds(id, ok), t).calls[id];
      Terminal(c.status) && (c.status == Completed <==> ok)
  {
  }

  lemma {:induction false} ClaimedIsIssued(es: seq<Event>, t: Timing)
    ensures forall u | u in Exec(es, t).claims :: u in Exec(es, t).issued
  {
    hide Safe;
    if es != [] {
      ClaimedIsIssued(es[..|es| - 1], t);
      RunIsSafe(es[..|es| - 1], t);
      ClaimStep(Exec(es[..|es| - 1], t), es[|es| - 1], t);
    }
  }

  /** Call `id` has this status now; it was reported if it just ended; no other call changed. */
  predicate Became(s: State, s': State, id: Name, status: Status)
    requires id in s.calls
  {
    && id in s'.calls && s'.calls[id].status == status
    && Count(s'.reports, id) == Count(s.reports, id) +
         (if Terminal(status) && !Terminal(s.calls[id].status) then 1 else 0)
    && (forall other | other in s.calls && other != id :: other in s'.calls && s'.calls[other] == s.calls[other])
  }

  lemma UpdateBecomes(s: State, id: Name, status: Status)
    requires id in s.calls
    ensures Became(s, Update(s, id, status), id, status)
    ensures Update(s, id, status).calls[id].due == s.calls[id].due
  {
  }

  lemma DisarmBecomes(s: State, id: Name)
    requires id in s.calls
    ensures Became(s, Disarm(s, id), id, if s.calls[id].status == Dialing then Failed else s.calls[id].status)
    ensures Disarm(s, id).calls[id].due.None?
  {
    UpdateBecomes(s.(calls := s.calls[id := s.calls[id].(due := None)]), id, Failed);
    hide Update, Count;
  }

  /** What else ends a call: a failed origination, the watchdog while it dials, or a waiter that gave up. */
  lemma CallEnds(s: State, e: Event, id: Name, t: Timing)
    requires id in s.calls && (e.OriginateFailed? || e.WatchdogFires? || e.WaitTimesOut?) && e.id == id
    ensures var was := s.calls[id];
      var fails := if e.OriginateFailed? then was.status == Registered
                   else if e.WatchdogFires? then was.status == Dialing && was.due.Some?
                   else was.status != Registered;
      Became(s, Step(s, e, t), id, if fails then Failed else was.status)
    ensures e.WatchdogFires? ==> Step(s, e, t).calls[id].due.None?
  {
    UpdateBecomes(s, id, Failed);
    DisarmBecomes(s, id);
    hide Update, Disarm, Count, Bump;
  }

  /** An ended call that is collected is found no more, by its id or its uuid. */
  lemma CollectedIsGone(s: State, id: Name, t: Timing)
    requires Safe(s, t) && id in s.calls && Terminal(s.calls[id].status)
    ensures var s' := Step(s, Cleanup(id), t); id !in s'.calls && Lookup(s', s.calls[id].uuid).None?
  {
    assert CallOk(s, id, t);
  }

  lemma IndexedIsIssued(s: State, t: Timing)
    requires Safe(s, t)
    ensures forall u | u in s.index :: u in s.issued
  {
    forall u | u in s.index ensures u in s.issued {
      assert CallOk(s, s.index[u], t);
    }
  }

  predicate NoSocket(s: State, s': State) {
    && s'.claims == s.claims && s'.admitted == s.admitted && s.issued <= s'.issued && s.now <= s'.now
  }

  lemma UpdateClaimsNothing(s: State, id: Name, status: Status)
    ensures NoSocket(s, Update(s, id, status))
  {
    hide Bump;
  }

  lemma DisarmClaimsNothing(s: State, id: Name)
    requires id in s.calls
    ensures NoSocket(s, Disarm(s, id))
  {
    var d := s.(calls := s.calls[id := s.calls[id].(due := None)]);
    UpdateClaimsNothing(d, id, Failed);
    hide Update;
  }

  /** Only a media socket claims a uuid or is admitted. */
  lemma OnlySocketsClaim(s: State, e: Event, t: Timing)
    requires !e.Media?
    ensures NoSocket(s, Step(s, e, t))
  {
    hide WatchdogsInTime, Ended, Sweep, Update, Disarm;
    match e
    case StatusCallback(uuid, word) =>
      if Lookup(s, uuid).Some? { UpdateClaimsNothing(s, Lookup(s, uuid).value, Failed); }
    case WatchdogFires(id) => if id in s.calls { DisarmClaimsNothing(s, id); }
    case PipelineEnds(id, ok) => UpdateClaimsNothing(s, id, if ok then Completed else Failed);
    case OriginateFailed(id) => UpdateClaimsNothing(s, id, Failed);
    case WaitTimesOut(id) => UpdateClaimsNothing(s, id, Failed);
    case _ =>
  }

  /** A socket claims no uuid but the one it names, and is counted under no other. */
  ghost predicate OneSocket(s: State, s': State, named: Name) {
    && (forall u | u in s'.claims :: u in s.claims || u == named)
    && (forall u: Name | u != named :: Count(s'.admitted, u) == Count(s.admitted, u))
    && s'.issued == s.issued && s'.now == s.now && s'.index == s.index
    && (forall u | u in s.pending && s.pending[u] > s.now && u != named ::
          u in s'.pending && s'.pending[u] == s.pending[u])
  }

  lemma OutboundIsOneSocket(s: State, id: Name, uuid: Name, routed: bool, room: bool, t: Timing)
    requires id in s.calls
    ensures OneSocket(s, MediaOutbound(s, id, uuid, routed, room, t), uuid)
  {
    var c := s.(claims := Sweep(s.claims, s.now)[uuid := s.now + t.claimTtl], admitted := Bump(s.admitted, uuid));
    ClaimIsOneSocket(s, uuid, s.now + t.claimTtl);
    assert OneSocket(s, s.(claims := Sweep(s.claims, s.now)), uuid);
    UpdateFrame(c, id, Connected);
    hide Bump, Update, Count, Sweep;
  }

  lemma ClaimIsOneSocket(s: State, uuid: Name, until: real)
    ensures OneSocket(s, s.(claims := Sweep(s.claims, s.now)[uuid := until], admitted := Bump(s.admitted, uuid)), uuid)
  {
  }

  lemma UpdateFrame(s: State, id: Name, status: Status)
    ensures var s' := Update(s, id, status);
      s'.claims == s.claims && s'.admitted == s.admitted && s'.issued == s.issued && s'.now == s.now
      && s'.index == s.index && s'.pending == s.pending
  {
    hide Bump;
  }

  lemma InboundIsOneSocket(s: State, token: Name)
    ensures OneSocket(s, MediaInbound(s, token), token)
  {
  }

  lemma MediaIsOneSocket(s: State, named: Name, routed: bool, room: bool, t: Timing)
    ensures OneSocket(s, Step(s, Media(Some(named), routed, room), t), named)
  {
    hide MediaOutbound, MediaInbound, OneSocket;
    if Lookup(s, named).Some? {
      OutboundIsOneSocket(s, Lookup(s, named).value, named, routed, room, t);
    } else {
      InboundIsOneSocket(s, named);
    }
  }

  lemma ClaimStep(s: State, e: Event, t: Timing)
    requires Safe(s, t) && forall u | u in s.claims :: u in s.issued
    ensures forall u | u in Step(s, e, t).claims :: u in Step(s, e, t).issued
  {
    if !e.Media? {
      OnlySocketsClaim(s, e, t);
      hide Step;
    } else if e.presented.Some? {
      UnindexedClaimsNothing(s, e.presented.value, e.routed, e.room, t);
      MediaIsOneSocket(s, e.presented.value, e.routed, e.room, t);
      IndexedIsIssued(s, t);
      hide Step, Safe;
    }
  }

  lemma UnindexedClaimsNothing(s: State, named: Name, routed: bool, room: bool, t: Timing)
    ensures named in s.index || Step(s, Media(Some(named), routed, room), t).claims == s.claims
  {
    hide MediaOutbound;
  }

  /** The call `id` is found under `uuid` and waits there, no socket having claimed it. */
  predicate Waiting(s: State, id: Name, uuid: Name, status: Status) {
    && Lookup(s, uuid) == Some(id) && s.calls[id].uuid == uuid && s.calls[id].status == status
    && (status == Registered ==> s.calls[id].due.None?)
    && uuid !in s.claims && Count(s.pipelines, uuid) == 0
  }

  /** Before the origination returned, nothing but its return moves the call. */
  predicate Quiet(e: Event, id: Name) { !(e.OriginateOk? && e.id == id) && !(e.OriginateFailed? && e.id == id) }

  /** While it dials: no socket names it, no callback ends it, no watchdog and no waiter gives it up. */
  predicate Ringing(e: Event, id: Name, uuid: Name) {
    && !(e.Media? && e.presented == Some(uuid))
    && !(e.StatusCallback? && e.uuid == uuid && Ended(e.word))
    && !(e.WatchdogFires? && e.id == id) && !(e.WaitTimesOut? && e.id == id)
  }

  lemma UpdateWaits(s: State, other: Name, to: Status, id: Name, uuid: Name, status: Status)
    requires Waiting(s, id, uuid, status) && other != id
    ensures Waiting(Update(s, other, to), id, uuid, status)
  {
  }

  lemma MediaWaits(s: State, other: Name, u: Name, routed: bool, room: bool, t: Timing, id: Name, uuid: Name,
                   status: Status)
    requires Waiting(s, id, uuid, status) && other in s.calls && if other == id then status == Registered else u != uuid
    ensures Waiting(MediaOutbound(s, other, u, routed, room, t), id, uuid, status)
  {
  }

  lemma DisarmWaits(s: State, other: Name, id: Name, uuid: Name, status: Status)
    requires Waiting(s, id, uuid, status) && other in s.calls && other != id
    ensures Waiting(Disarm(s, other), id, uuid, status)
  {
    hide Bump, Count;
  }

  lemma RemoveWaits(s: State, other: Name, t: Timing, id: Name, uuid: Name, status: Status)
    requires Safe(s, t) && Waiting(s, id, uuid, status) && other in s.calls && other != id
    ensures Waiting(Remove(s, other), id, uuid, status)
  {
    assert CallOk(s, other, t);
  }

  lemma AddWaits(s: State, other: Name, u: Name, t: Timing, id: Name, uuid: Name, status: Status)
    requires Safe(s, t) && Waiting(s, id, uuid, status) && other !in s.issued && u !in s.issued
    ensures Waiting(AddCall(s, other, u), id, uuid, status)
  {
    assert CallOk(s, id, t);
  }

  lemma SocketWaits(s: State, presented: Option<Name>, routed: bool, room: bool, t: Timing, id: Name, uuid: Name,
                    status: Status)
    requires Safe(s, t) && Waiting(s, id, uuid, status) && (presented == Some(uuid) ==> status == Registered)
    ensures Waiting(Step(s, Media(presented, routed, room), t), id, uuid, status)
  {
    assert Indexed(s);
    hide Safe, MediaOutbound, Sweep, Bump;
    if presented.Some? && Lookup(s, presented.value).Some? {
      MediaWaits(s, Lookup(s, presented.value).value, presented.value, routed, room, t, id, uuid, status);
    }
  }

  /** What may end another call leaves this one. */
  lemma EndingWaits(s: State, e: Event, t: Timing, id: Name, uuid: Name, status: Status)
    requires Waiting(s, id, uuid, status)
    requires e.StatusCallback? || e.WatchdogFires? || e.PipelineEnds? || e.OriginateFailed? || e.WaitTimesOut?
    requires (status == Registered && Quiet(e, id)) || (status == Dialing && Ringing(e, id, uuid))
    requires e.StatusCallback? && Lookup(s, e.uuid) == Some(id) ==> e.uuid == uuid
    ensures Waiting(Step(s, e, t), id, uuid, status)
  {
    hide Update, Disarm;
    match e
    case StatusCallback(u, word) =>
      if Lookup(s, u).Some? && Lookup(s, u).value != id {
        UpdateWaits(s, Lookup(s, u).value, Failed, id, uuid, status);
      }
    case WatchdogFires(other) => if other in s.calls && other != id { DisarmWaits(s, other, id, uuid, status); }
    case PipelineEnds(other, ok) =>
      if other != id { UpdateWaits(s, other, if ok then Completed else Failed, id, uuid, status); }
    case OriginateFailed(other) => if other != id { UpdateWaits(s, other, Failed, id, uuid, status); }
    case WaitTimesOut(other) => if other != id { UpdateWaits(s, other, Failed, id, uuid, status); }
  }

  lemma StepWaits(s: State, e: Event, t: Timing, id: Name, uuid: Name, status: Status)
    requires Safe(s, t) && Waiting(s, id, uuid, status)
    requires (status == Registered && Quiet(e, id)) || (status == Dialing && Ringing(e, id, uuid))
    ensures Waiting(Step(s, e, t), id, uuid, status)
  {
    if e.Media? {
      SocketWaits(s, e.presented, e.routed, e.room, t, id, uuid, status);
    } else if e.StatusCallback? || e.WatchdogFires? || e.PipelineEnds? || e.OriginateFailed? || e.WaitTimesOut? {
      assert e.StatusCallback? && Lookup(s, e.uuid) == Some(id) ==> e.uuid == uuid by { assert Indexed(s); }
      EndingWaits(s, e, t, id, uuid, status);
    } else {
      hide Safe, Remove, AddCall, Sweep, WatchdogsInTime;
      match e
      case Register(other, u) => if other !in s.issued && u !in s.issued { AddWaits(s, other, u, t, id, uuid, status); }
      case Cleanup(other) => if other in s.calls && other != id { RemoveWaits(s, other, t, id, uuid, status); }
      case _ =>
    }
  }

  lemma {:induction false} RunWaits(es: seq<Event>, more: seq<Event>, t: Timing, id: Name, uuid: Name, status: Status)
    requires Waiting(Exec(es, t), id, uuid, status)
    requires forall i | 0 <= i < |more| ::
      (status == Registered && Quiet(more[i], id)) || (status == Dialing && Ringing(more[i], id, uuid))
    ensures Waiting(Exec(es + more, t), id, uuid, status)
    decreases |more|
  {
    hide Step, Safe, Waiting, Quiet, Ringing;
    if more == [] {
      assert es + more == es;
    } else {
      var init, e := more[..|more| - 1], more[|more| - 1];
      RunWaits(es, init, t, id, uuid, status);
      RunIsSafe(es + init, t);
      assert (es + more)[..|es + more| - 1] == es + init;
      StepWaits(Exec(es + init, t), e, t, id, uuid, status);
    }
  }

  lemma ExecOne(es: seq<Event>, e: Event, t: Timing)
    ensures Exec(es + [e], t) == Step(Exec(es, t), e, t)
  {
    hide Step;
    assert (es + [e])[..|es + [e]| - 1] == es;
  }

  /** A call from its registration through its origination to its first socket. */
  function Answered(before: seq<Event>, id: Name, uuid: Name, early: seq<Event>, ringing: seq<Event>): seq<Event> {
    before + [Register(id, uuid)] + early + [OriginateOk(id)] + ringing + [Media(Some(uuid), true, true)]
  }

  /**
   Whatever came before and whatever else runs: a call whose first socket, routed and with room, comes after its
   origination and before any callback that ends it, its watchdog or its waiter, is connected with one pipeline.
   */
  lemma AnsweredCallConnects(before: seq<Event>, id: Name, uuid: Name, early: seq<Event>, ringing: seq<Event>,
                             t: Timing)
    requires id !in Exec(before, t).issued && uuid !in Exec(before, t).issued && id != uuid
    requires forall i | 0 <= i < |early| :: Quiet(early[i], id)
    requires forall i | 0 <= i < |ringing| :: Ringing(ringing[i], id, uuid)
    ensures var s := Exec(Answered(before, id, uuid, early, ringing), t);
      && Lookup(s, uuid) == Some(id) && s.calls[id].status == Connected
      && Count(s.pipelines, uuid) == 1
  {
    hide Step, Safe, Quiet, Ringing;
    var a := before + [Register(id, uuid)];
    var b := a + early;
    var c := b + [OriginateOk(id)];
    var d := c + ringing;
    ExecOne(before, Register(id, uuid), t);
    Registers(before, id, uuid, t);
    RunWaits(a, early, t, id, uuid, Registered);
    ExecOne(b, OriginateOk(id), t);
    StartsToDial(Exec(b, t), id, uuid, t);
    RunWaits(c, ringing, t, id, uuid, Dialing);
    ExecOne(d, Media(Some(uuid), true, true), t);
    MediaConnectsIff(Exec(d, t), uuid, id, true, true, t);
  }

  lemma Registers(before: seq<Event>, id: Name, uuid: Name, t: Timing)
    requires id !in Exec(before, t).issued && uuid !in Exec(before, t).issued && id != uuid
    ensures Waiting(Step(Exec(before, t), Register(id, uuid), t), id, uuid, Registered)
  {
    hide Exec;
    ClaimedIsIssued(before, t);
    RunIsSafe(before, t);
  }

  lemma StartsToDial(s: State, id: Name, uuid: Name, t: Timing)
    requires Waiting(s, id, uuid, Registered)
    ensures Waiting(Step(s, OriginateOk(id), t), id, uuid, Dialing)
  {
  }

  /** The inbound token stands until its time; past it nothing is said. */
  predicate TokenStands(s: State, token: Name, expiry: real) {
    s.now < expiry ==>
      && token in s.pending && s.pending[token] == expiry && token !in s.index && token in s.issued
      && Count(s.admitted, token) == 0
  }

  lemma StepKeepsToken(s: State, e: Event, t: Timing, token: Name, expiry: real)
    requires TokenStands(s, token, expiry) && !(e.Media? && e.presented == Some(token))
    ensures TokenStands(Step(s, e, t), token, expiry)
  {
    if !e.Media? {
      OnlySocketsClaim(s, e, t);
      if token in s.issued { OtherStepsKeepToken(s, e, t, token); }
      hide Step;
    } else if e.presented.Some? {
      MediaIsOneSocket(s, e.presented.value, e.routed, e.room, t);
      hide Step;
    }
  }

  lemma OtherStepsKeepToken(s: State, e: Event, t: Timing, token: Name)
    requires !e.Media? && token in s.issued
    ensures var s' := Step(s, e, t);
      && (token !in s.index ==> token !in s'.index)
      && (token in s.pending && s.pending[token] > s.now ==>
            token in s'.pending && s'.pending[token] == s.pending[token])
  {
    hide WatchdogsInTime, Ended, Bump, Update, Disarm;
    match e
    case StatusCallback(uuid, word) => if Lookup(s, uuid).Some? { UpdateFrame(s, Lookup(s, uuid).value, Failed); }
    case WatchdogFires(id) => if id in s.calls { DisarmFrame(s, id); }
    case PipelineEnds(id, ok) => UpdateFrame(s, id, if ok then Completed else Failed);
    case OriginateFailed(id) => UpdateFrame(s, id, Failed);
    case WaitTimesOut(id) => UpdateFrame(s, id, Failed);
    case _ =>
  }

  lemma DisarmFrame(s: State, id: Name)
    requires id in s.calls
    ensures Disarm(s, id).index == s.index && Disarm(s, id).pending == s.pending
  {
    UpdateFrame(s.(calls := s.calls[id := s.calls[id].(due := None)]), id, Failed);
    hide Update;
  }

  lemma {:induction false} RunKeepsToken(es: seq<Event>, more: seq<Event>, t: Timing, token: Name, expiry: real)
    requires TokenStands(Exec(es, t), token, expiry)
    requires forall i | 0 <= i < |more| :: !(more[i].Media? && more[i].presented == Some(token))
    ensures TokenStands(Exec(es + more, t), token, expiry)
    decreases |more|
  {
    hide Step, Safe, TokenStands;
    if more == [] {
      assert es + more == es;
    } else {
      var init, e := more[..|more| - 1], more[|more| - 1];
      RunKeepsToken(es, init, t, token, expiry);
      assert (es + more)[..|es + more| - 1] == es + init;
      StepKeepsToken(Exec(es + init, t), e, t, token, expiry);
    }
  }

  /** An inbound token presented for the first time within its minute admits its socket. */
  lemma TokenAdmits(before: seq<Event>, token: Name, waiting: seq<Event>, routed: bool, room: bool, t: Timing)
    requires token !in Exec(before, t).issued
    requires forall i | 0 <= i < |waiting| :: !(waiting[i].Media? && waiting[i].presented == Some(token))
    requires Exec(before + [Webhook(token)] + waiting, t).now < Exec(before, t).now + 60.0
    ensures var run := before + [Webhook(token)] + waiting + [Media(Some(token), routed, room)];
      Count(Exec(run, t).admitted, token) == 1
  {
    hide Safe, Step, Exec, TokenStands;
    var expiry := Exec(before, t).now + 60.0;
    var a := before + [Webhook(token)];
    ExecOne(before, Webhook(token), t);
    RunIsSafe(before, t);
    IssuesToken(Exec(before, t), token, t);
    RunKeepsToken(a, waiting, t, token, expiry);
    ExecOne(a + waiting, Media(Some(token), routed, room), t);
    TakesToken(Exec(a + waiting, t), token, expiry, routed, room, t);
  }

  lemma TakesToken(s: State, token: Name, expiry: real, routed: bool, room: bool, t: Timing)
    requires TokenStands(s, token, expiry) && s.now < expiry
    ensures Count(Step(s, Media(Some(token), routed, room), t).admitted, token) == 1
  {
    hide MediaOutbound;
  }

  lemma IssuesToken(s: State, token: Name, t: Timing)
    requires Safe(s, t) && token !in s.issued
    ensures TokenStands(Step(s, Webhook(token), t), token, s.now + 60.0)
  {
    IndexedIsIssued(s, t);
  }

  // The code

  /** A map whose entries expire, swept on every access. */
  class TtlStore {
    const ttl: real
    var items: map<Name, real>

    constructor (ttl: real)
      ensures this.ttl == ttl && items == map[]
    {
      this.ttl, items := ttl, map[];
    }

    method SweepExpired(now: real)
      modifies this
      ensures items == Sweep(old(items), now)
    {
      var left := items.Keys;
      while left != {}
        invariant left <= old(items).Keys
        invariant items == map k | k in old(items) && (k in left || old(items)[k] > now) :: old(items)[k]
        decreases left
      {
        var key :| key in left;
        left := left - {key};
        if items[key] <= now {
          items := items - {key};
        }
      }
    }

    method Put(key: Name, now: real)
      modifies this
      ensures items == Sweep(old(items), now)[key := now + ttl]
    {
      SweepExpired(now);
      items := items[key := now + ttl];
    }

    /** Single-use take. */
    method Pop(key: Name, now: real) returns (found: bool)
      modifies this
      ensures found <==> key in old(items) && old(items)[key] > now
      ensures items == Sweep(old(items), now) - {key}
    {
      SweepExpired(now);
      found := key in items;
      items := items - {key};
    }

    /** Register-if-new; true when the key was already there. */
    method Seen(key: Name, now: real) returns (seen: bool)
      modifies this
      ensures seen <==> key in old(items) && old(items)[key] > now
      ensures items == if seen then Sweep(old(items), now) else Sweep(old(items), now)[key := now + ttl]
    {
      SweepExpired(now);
      if key in items {
        return true;
      }
      items := items[key := now + ttl];
      return false;
    }
  }

  /** The call manager with the Twilio handlers over it. */
  class Daemon {
    const timing: Timing
    const pending: TtlStore
    const claims: TtlStore
    var now: real
    var calls: map<Name, Call>
    var index: map<Name, Name>
    ghost var admitted: Counter
    ghost var pipelines: Counter
    ghost var reports: Counter
    ghost var issued: set<Name>

    ghost function View(): State
      reads this, pending, claims
    {
      State(now, calls, index, pending.items, claims.items, admitted, pipelines, reports, issued)
    }

    ghost predicate Valid()
      reads this
    {
      pending != claims && pending.ttl == PENDING_TTL && claims.ttl == timing.claimTtl
    }

    constructor (timing: Timing)
      ensures Valid() && View() == START && this.timing == timing && fresh(pending) && fresh(claims)
    {
      this.timing := timing;
      pending := new TtlStore(PENDING_TTL);
      claims := new TtlStore(timing.claimTtl);
      now, calls, index := 0.0, map[], map[];
      admitted, pipelines, reports, issued := map[], map[], map[], {};
    }

    method GetCallByUuid(uuid: Name) returns (id: Option<Name>)
      ensures id == Lookup(View(), uuid)
    {
      if uuid in index && index[uuid] in calls {
        return Some(index[uuid]);
      }
      return None;
    }

    /** Sets the status; the log row goes out on the edge into a terminal one. */
    method UpdateStatus(id: Name, status: Status)
      modifies this`calls, this`reports
      ensures View() == Update(old(View()), id, status)
    {
      if id !in calls {
        return;
      }
      var before := calls[id].status;
      calls := calls[id := calls[id].(status := status)];
      if Terminal(status) && !Terminal(before) {
        reports := Bump(reports, id);
      }
    }

    /** A media socket that named `presented`: whether its pipeline runs. */
    method Media(presented: Option<Name>, routed: bool, room: bool) returns (attached: bool)
      requires Valid()
      modifies this`calls, this`reports, this`admitted, this`pipelines, pending, claims
      ensures Valid() && View() == Step(old(View()), Event.Media(presented, routed, room), timing)
      ensures attached <==>
        && presented.Some?
        && match Lookup(old(View()), presented.value)
           case Some(id) =>
             && old(calls[id].status) == Dialing && !Unexpired(old(claims.items), presented.value, now)
             && routed && room
           case None => Unexpired(old(pending.items), presented.value, now) && room
      ensures attached ==> Count(admitted, presented.value) == Count(old(admitted), presented.value) + 1
      ensures presented.Some? && Lookup(old(View()), presented.value).Some? ==>
        var id := Lookup(old(View()), presented.value).value;
        id in calls && calls[id].status == if attached then Connected else old(calls[id].status)
    {
      hide Count, Bump, AddCall, StartRinging, IssueToken, Disarm, Remove, Ended, WatchdogsInTime;
      attached := false;
      if presented.None? {
        return;
      }
      var token := presented.value;
      BumpCounts(admitted, token, token);
      var id := GetCallByUuid(token);
      if id.Some? {
        if calls[id.value].status != Dialing {
          return;
        }
        var seen := claims.Seen(token, now);
        if seen {
          return;
        }
        admitted := Bump(admitted, token);
        if routed && room {
          UpdateStatus(id.value, Connected);
          pipelines := Bump(pipelines, token);
          attached := true;
        }
      } else {
        var found := pending.Pop(token, now);
        assert token !in Sweep(old(pending.items), now) ==> pending.items == Sweep(old(pending.items), now);
        if found {
          admitted := Bump(admitted, token);
          attached := room;
        }
      }
    }

    /** Terminal words apply only while the call still dials. */
    method OnStatus(uuid: Name, word: string)
      modifies this`calls, this`reports
      ensures View() == Step(old(View()), StatusCallback(uuid, word), timing)
      ensures View() != old(View()) <==>
        && Lookup(old(View()), uuid).Some? && old(calls[Lookup(View(), uuid).value].status) == Dialing
        && word in {"busy", "no-answer", "failed", "canceled", "completed"}
    {
      var id := GetCallByUuid(uuid);
      if id.Some? && calls[id.value].status == Dialing {
        if word in {"busy", "no-answer", "failed", "canceled"} {
          UpdateStatus(id.value, Failed);
        } else if word == "completed" {
          UpdateStatus(id.value, Failed);
        }
      }
    }

    /** The armed watchdog of a call, once it slept. */
    method DialTimeoutWatchdog(id: Name)
      modifies this`calls, this`reports
      ensures View() == Step(old(View()), WatchdogFires(id), timing)
    {
      if id !in calls || calls[id].due.None? {
        return;
      }
      var status := calls[id].status;
      calls := calls[id := calls[id].(due := None)];
      if status == Dialing {
        UpdateStatus(id, Failed);
      }
    }

    method CleanupCall(id: Name)
      modifies this`calls, this`index
      ensures View() == if id in old(calls) then Remove(old(View()), id) else old(View())
    {
      if id !in calls {
        return;
      }
      index := index - {calls[id].uuid};
      calls := calls - {id};
    }
  }
}
