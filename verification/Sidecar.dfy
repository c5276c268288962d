/**
 The sidecar's two maps, from upstream session to its last activity and OtoDock id and from OtoDock id to session,
 while clients touch, refresh and delete sessions, the proxy closes them by id and a collector drops the idle ones.
 A step runs from one await to the next.
 */
module Sidecar {
  import opened Wrappers

  type Id = string
  const NONE: Id := ""

  const IDLE_S := 600.0

  datatype Session = Session(last: real, oto: Id)

  /** What the collector holds: the rest of its list, and the session whose upstream it awaits. */
  datatype Pass = Pass(now: real, rest: seq<Id>, awaited: Option<Id>)

  datatype State = State(sessions: map<Id, Session>, index: map<Id, Id>, pass: Pass, closing: seq<Id>)

  datatype Event =
    | Touch(sid: Id, oto: Id, now: real)
    | Refresh(sid: Id, now: real)
    | Delete(sid: Id)
    | GcBegin(now: real, order: seq<Id>)
    | GcNext
    | GcForget
    | CloseBegin(oto: Id)
    | CloseEnd(k: nat)

  function Empty(): State { State(map[], map[], Pass(0.0, [], None), []) }

  function Lookup(index: map<Id, Id>, oto: Id): Option<Id> { if oto in index then Some(index[oto]) else None }

  function Touched(s: State, sid: Id, oto: Id, now: real): State {
    if sid == NONE then s
    else
      var kept := if sid in s.sessions then s.sessions[sid].oto else NONE;
      s.(sessions := s.sessions[sid := Session(now, if oto != NONE then oto else kept)],
         index := if oto != NONE then s.index[oto := sid] else s.index)
  }

  function Refreshed(s: State, sid: Id, now: real): State {
    if sid in s.sessions then s.(sessions := s.sessions[sid := s.sessions[sid].(last := now)]) else s
  }

  function Forgotten(s: State, sid: Id): State {
    if sid !in s.sessions then s
    else
      var oto := s.sessions[sid].oto;
      s.(sessions := s.sessions - {sid},
         index := if oto != NONE && Lookup(s.index, oto) == Some(sid) then s.index - {oto} else s.index)
  }

  predicate Idle(s: State, sid: Id, now: real) { sid in s.sessions && now - s.sessions[sid].last > IDLE_S }

  /** order lists the idle sessions, each once. */
  predicate StaleList(s: State, now: real, order: seq<Id>) {
    && (forall i | 0 <= i < |order| :: Idle(s, order[i], now))
    && (forall sid | sid in s.sessions && Idle(s, sid, now) :: sid in order)
    && (forall i, j | 0 <= i < j < |order| :: order[i] != order[j])
  }

  predicate Resting(pass: Pass) { pass.rest == [] && pass.awaited == None }

  function Step(s: State, e: Event): State {
    match e
    case Touch(sid, oto, now) => Touched(s, sid, oto, now)
    case Refresh(sid, now) => Refreshed(s, sid, now)
    case Delete(sid) => Forgotten(s, sid)
    case GcBegin(now, order) =>
      if Resting(s.pass) && StaleList(s, now, order) then s.(pass := Pass(now, order, None)) else s
    case GcNext =>
      if s.pass.awaited.None? && s.pass.rest != [] then
        var sid := s.pass.rest[0];
        s.(pass := Pass(s.pass.now, s.pass.rest[1..], if sid in s.sessions then Some(sid) else None))
      else s
    case GcForget =>
      if s.pass.awaited.Some? then Forgotten(s, s.pass.awaited.value).(pass := s.pass.(awaited := None)) else s
    case CloseBegin(oto) => if oto in s.index then s.(closing := s.closing + [s.index[oto]]) else s
    case CloseEnd(k) =>
      if k < |s.closing| then Forgotten(s, s.closing[k]).(closing := s.closing[..k] + s.closing[k + 1..]) else s
  }

  function After(es: seq<Event>): State {
    if es == [] then Empty() else Step(After(es[..|es| - 1]), es[|es| - 1])
  }

  // The index names live sessions

  ghost predicate IndexOk(s: State) {
    forall o | o in s.index :: o != NONE && s.index[o] in s.sessions && s.sessions[s.index[o]].oto == o
  }

  /** A touch that gives a session another id while its old id still leads to it. */
  predicate Rebinds(s: State, e: Event) {
    && e.Touch? && e.sid != NONE && e.oto != NONE && e.sid in s.sessions
    && s.sessions[e.sid].oto != e.oto && Lookup(s.index, s.sessions[e.sid].oto) == Some(e.sid)
  }

  lemma ForgetIndexOk(s: State, sid: Id)
    requires IndexOk(s)
    ensures IndexOk(Forgotten(s, sid))
  {
    var t := Forgotten(s, sid);
    forall o | o in t.index ensures o != NONE && t.index[o] in t.sessions && t.sessions[t.index[o]].oto == o {
      assert o in s.index;
    }
  }

  lemma StepIndexOk(s: State, e: Event)
    requires IndexOk(s)
    ensures IndexOk(Step(s, e)) <==> !Rebinds(s, e)
  {
    match e
    case Delete(sid) => ForgetIndexOk(s, sid);
    case GcForget => if s.pass.awaited.Some? { ForgetIndexOk(s, s.pass.awaited.value); }
    case CloseEnd(k) => if k < |s.closing| { ForgetIndexOk(s, s.closing[k]); }
    case Touch(sid, oto, now) =>
      var t := Touched(s, sid, oto, now);
      if Rebinds(s, e) {
        var was := s.sessions[sid].oto;
        assert t.index[was] == sid && t.sessions[sid].oto == oto;
      }
    case _ =>
  }

  /** At the end of the run and of every run it goes on from. */
  ghost predicate AlwaysOk(es: seq<Event>) {
    IndexOk(After(es)) && (es != [] ==> AlwaysOk(es[..|es| - 1]))
  }

  /** Each session keeps its id for as long as that id leads to it. */
  predicate NeverRebinds(es: seq<Event>) {
    es != [] ==> NeverRebinds(es[..|es| - 1]) && !Rebinds(After(es[..|es| - 1]), es[|es| - 1])
  }

  /**
   Over every run: each id leads to a live session that carries it, at every moment, exactly when no touch ever gives
   a session another id while the first still leads to it.
   */
  lemma {:induction false} IndexOkIff(es: seq<Event>)
    ensures AlwaysOk(es) <==> NeverRebinds(es)
  {
    hide IndexOk, Rebinds, Step;
    if es == [] {
      EmptyIsOk();
    } else {
      var init := es[..|es| - 1];
      IndexOkIff(init);
      if IndexOk(After(init)) { StepIndexOk(After(init), es[|es| - 1]); }
    }
  }

  lemma EmptyIsOk()
    ensures IndexOk(After([]))
  {
  }

  // What the maps remember

  /** The session an event forgets, if it forgets one. */
  function Victim(s: State, e: Event): Option<Id> {
    match e
    case Delete(sid) => Some(sid)
    case GcForget => s.pass.awaited
    case CloseEnd(k) => if k < |s.closing| then Some(s.closing[k]) else None
    case _ => None
  }

  /** Touched since it was last forgotten, or never was. */
  function Open(es: seq<Event>, sid: Id): bool {
    if es == [] then false
    else
      var init, e := es[..|es| - 1], es[|es| - 1];
      if e.Touch? && e.sid == sid != NONE then true else Open(init, sid) && Victim(After(init), e) != Some(sid)
  }

  /** The session last touched with the id, unless that one has been forgotten since. */
  function Newest(es: seq<Event>, oto: Id): Option<Id> {
    if es == [] then None
    else
      var init, e := es[..|es| - 1], es[|es| - 1];
      if e.Touch? && e.sid != NONE && e.oto == oto then Some(e.sid)
      else
        match Newest(init, oto)
        case None => None
        case Some(sid) => if Victim(After(init), e) == Some(sid) then None else Some(sid)
  }

  /** A session is known exactly while touched and not forgotten since: a refresh neither opens nor closes one. */
  lemma {:induction false} OpenIff(es: seq<Event>, sid: Id)
    ensures sid in After(es).sessions <==> Open(es, sid)
  {
    if es != [] {
      OpenIff(es[..|es| - 1], sid);
    }
  }

  lemma NewestStep(s: State, e: Event, o: Id)
    requires IndexOk(s) && !Rebinds(s, e) && o != NONE
    ensures Lookup(Step(s, e).index, o) ==
      if e.Touch? && e.sid != NONE && e.oto == o then Some(e.sid)
      else if Lookup(s.index, o).Some? && Victim(s, e) == Lookup(s.index, o) then None
      else Lookup(s.index, o)
  {
    if Lookup(s.index, o).Some? { assert s.index[o] in s.sessions; }
    match e
    case Delete(sid) => ForgetLookup(s, sid, o);
    case GcForget => if s.pass.awaited.Some? { ForgetLookup(s, s.pass.awaited.value, o); }
    case CloseEnd(k) => if k < |s.closing| { ForgetLookup(s, s.closing[k], o); }
    case _ =>
  }

  /** Forgetting a session takes away the mapping that leads to it, and no newer one of the same id. */
  lemma ForgetLookup(s: State, sid: Id, o: Id)
    requires IndexOk(s) && o != NONE
    ensures Lookup(Forgotten(s, sid).index, o) == if Lookup(s.index, o) == Some(sid) then None else Lookup(s.index, o)
  {
    if o in s.index { assert s.index[o] in s.sessions && s.sessions[s.index[o]].oto == o; }
  }

  /** In any state at all, whoever else holds the id keeps it. */
  lemma ForgetSparesNewer(s: State, sid: Id, o: Id)
    requires Lookup(s.index, o).Some? && Lookup(s.index, o) != Some(sid)
    ensures Lookup(Forgotten(s, sid).index, o) == Lookup(s.index, o)
  {
  }

  /** While sessions keep their ids, an id leads to the session last touched with it, unless that one is forgotten. */
  lemma {:induction false} IndexIsNewest(es: seq<Event>, o: Id)
    requires NeverRebinds(es) && o != NONE
    ensures Lookup(After(es).index, o) == Newest(es, o)
  {
    hide IndexOk, Rebinds, Step, Victim;
    if es != [] {
      var init := es[..|es| - 1];
      IndexIsNewest(init, o);
      IndexOkIff(init);
      NewestStep(After(init), es[|es| - 1], o);
    }
  }

  // The collector

  /** The event brings the session's last activity up to date. */
  predicate Bumps(e: Event, sid: Id) { (e.Touch? || e.Refresh?) && e.sid == sid }

  predicate Bumped(es: seq<Event>, sid: Id) {
    exists i | 0 <= i < |es| :: Bumps(es[i], sid)
  }

  /** The clock does not go back behind now, and no pass begins. */
  predicate Onwards(es: seq<Event>, now: real) {
    forall i | 0 <= i < |es| :: !es[i].GcBegin? && (es[i].Touch? || es[i].Refresh? ==> es[i].now >= now)
  }

  function Later(s: State, es: seq<Event>): State {
    if es == [] then s else Step(Later(s, es[..|es| - 1]), es[|es| - 1])
  }

  /** Since a pass found sid idle: if still known, nothing touched it, or it was touched at or after the pass's time. */
  lemma {:induction false} ActivitySince(s: State, es: seq<Event>, now: real, sid: Id)
    requires sid in s.sessions && sid != NONE && Onwards(es, now)
    ensures var t := Later(s, es);
      sid in t.sessions ==>
        if Bumped(es, sid) then t.sessions[sid].last >= now else t.sessions[sid].last == s.sessions[sid].last
  {
    if es != [] {
      var init, e := es[..|es| - 1], es[|es| - 1];
      ActivitySince(s, init, now, sid);
      BumpedStep(es, sid);
      ActivityStep(Later(s, init), e, sid);
      hide Step, Onwards;
      assert Later(s, es) == Step(Later(s, init), e);
      assert Bumps(e, sid) ==> e.now >= now;
      NotBornUnbumped(s, init, sid);
    }
  }

  lemma BumpedStep(es: seq<Event>, sid: Id)
    requires es != []
    ensures Bumped(es, sid) <==> Bumped(es[..|es| - 1], sid) || Bumps(es[|es| - 1], sid)
  {
    var init := es[..|es| - 1];
    if Bumped(init, sid) {
      var i :| 0 <= i < |init| && Bumps(init[i], sid);
      assert Bumps(es[i], sid);
    }
    if Bumped(es, sid) && !Bumps(es[|es| - 1], sid) {
      var i :| 0 <= i < |es| && Bumps(es[i], sid);
      assert Bumps(init[i], sid);
    }
  }

  lemma ActivityStep(s: State, e: Event, sid: Id)
    ensures sid in Step(s, e).sessions && Bumps(e, sid) && sid != NONE ==> Step(s, e).sessions[sid].last == e.now
    ensures sid in Step(s, e).sessions && !Bumps(e, sid) ==>
      sid in s.sessions && Step(s, e).sessions[sid].last == s.sessions[sid].last
  {
  }

  lemma {:induction false} NotBornUnbumped(s: State, es: seq<Event>, sid: Id)
    ensures sid in Later(s, es).sessions && !Bumped(es, sid) ==> sid in s.sessions
  {
    if es != [] {
      NotBornUnbumped(s, es[..|es| - 1], sid);
      BumpedStep(es, sid);
      ActivityStep(Later(s, es[..|es| - 1]), es[|es| - 1], sid);
    }
  }

  /** What the pass still holds is from its own list. */
  predicate FromList(s: State, now: real, order: seq<Id>) {
    && s.pass.now == now
    && (forall i | 0 <= i < |s.pass.rest| :: s.pass.rest[i] in order)
    && (s.pass.awaited.Some? ==> s.pass.awaited.value in order)
  }

  lemma {:induction false} PassKeepsList(s: State, es: seq<Event>, now: real, order: seq<Id>)
    requires FromList(s, now, order) && Onwards(es, now)
    ensures FromList(Later(s, es), now, order)
  {
    if es != [] {
      PassKeepsList(s, es[..|es| - 1], now, order);
    }
  }

  /**
   A pass begun on its own list drops, in whatever meanwhile, only listed sessions; and the one it drops is still idle
   by the pass's clock exactly when nothing touched or refreshed it since the list was made.
   */
  lemma GcTakesActiveIff(s: State, now: real, order: seq<Id>, es: seq<Event>)
    requires NONE !in s.sessions && Resting(s.pass) && StaleList(s, now, order) && Onwards(es, now)
    ensures var t := Later(Step(s, GcBegin(now, order)), es);
      t.pass.awaited.Some? && t.pass.awaited.value in t.sessions ==>
        var sid := t.pass.awaited.value;
        && sid in order && Idle(s, sid, now) && sid !in Step(t, GcForget).sessions
        && (Idle(t, sid, now) <==> !Bumped(es, sid))
  {
    var s1 := Step(s, GcBegin(now, order));
    var t := Later(s1, es);
    PassKeepsList(s1, es, now, order);
    if t.pass.awaited.Some? && t.pass.awaited.value in t.sessions {
      var sid := t.pass.awaited.value;
      assert Idle(s, sid, now);
      ActivitySince(s1, es, now, sid);
    }
  }

  /** Nobody opens the session anew. */
  predicate NotTouched(es: seq<Event>, sid: Id) {
    forall i | 0 <= i < |es| :: !(es[i].Touch? && es[i].sid == sid)
  }

  /** The pass is under way at every moment but, perhaps, the last. */
  predicate UnderWay(s: State, es: seq<Event>) {
    forall i | 0 <= i < |es| :: !Resting(Later(s, es[..i]).pass)
  }

  lemma TurnStep(s: State, e: Event, sid: Id)
    requires !Resting(s.pass) && !(e.Touch? && e.sid == sid)
    requires sid in s.sessions ==> sid in s.pass.rest || s.pass.awaited == Some(sid)
    ensures var t := Step(s, e); sid in t.sessions ==> sid in t.pass.rest || t.pass.awaited == Some(sid)
  {
    if s.pass.rest != [] { assert s.pass.rest == [s.pass.rest[0]] + s.pass.rest[1..]; }
  }

  lemma {:induction false} TurnComes(s: State, es: seq<Event>, sid: Id)
    requires UnderWay(s, es) && NotTouched(es, sid)
    requires sid in s.sessions ==> sid in s.pass.rest || s.pass.awaited == Some(sid)
    ensures var t := Later(s, es); sid in t.sessions ==> sid in t.pass.rest || t.pass.awaited == Some(sid)
  {
    hide Step, Resting;
    if es != [] {
      var init := es[..|es| - 1];
      assert forall i | 0 <= i < |init| :: init[..i] == es[..i] && init[i] == es[i];
      TurnComes(s, init, sid);
      TurnStep(Later(s, init), es[|es| - 1], sid);
    }
  }

  /** Whatever else runs, by the end of its pass every session that was idle for longer than ten minutes is gone. */
  lemma PassDropsIdle(s: State, now: real, order: seq<Id>, es: seq<Event>, sid: Id)
    requires Resting(s.pass) && StaleList(s, now, order)
    requires sid in s.sessions && s.sessions[sid].last < now - 600.0
    requires var s1 := Step(s, GcBegin(now, order));
      UnderWay(s1, es) && NotTouched(es, sid) && Resting(Later(s1, es).pass)
    ensures sid !in Later(Step(s, GcBegin(now, order)), es).sessions
  {
    TurnComes(Step(s, GcBegin(now, order)), es, sid);
  }

  /** Neither deleted nor closed by its id: only the collector could drop the session. */
  predicate LeftToPass(es: seq<Event>, sid: Id) {
    forall i | 0 <= i < |es| :: !es[i].CloseEnd? && !(es[i].Delete? && es[i].sid == sid)
  }

  /** And a session used within those ten minutes outlives the pass. */
  lemma {:induction false} PassSparesFresh(s: State, now: real, order: seq<Id>, es: seq<Event>, sid: Id)
    requires FromList(s, now, order) && Onwards(es, now) && LeftToPass(es, sid)
    requires sid in s.sessions && sid !in order
    ensures sid in Later(s, es).sessions
  {
    if es != [] {
      var init := es[..|es| - 1];
      PassSparesFresh(s, now, order, init, sid);
      PassKeepsList(s, init, now, order);
      hide Onwards;
    }
  }

  /** A pass lists exactly the sessions unused for more than ten minutes. */
  lemma ListedIff(s: State, now: real, order: seq<Id>, sid: Id)
    requires StaleList(s, now, order)
    ensures sid in order <==> sid in s.sessions && now - s.sessions[sid].last > 600.0
    ensures Resting(s.pass) ==> FromList(Step(s, GcBegin(now, order)), now, order)
  {
  }

  /** The moves a pass has left. */
  function Remaining(pass: Pass): nat { 2 * |pass.rest| + if pass.awaited.Some? then 1 else 0 }

  /** Each of its turns brings a pass nearer to its end, and nothing else moves it until it rests. */
  lemma PassEnds(s: State, e: Event)
    requires !Resting(s.pass)
    ensures var t := Step(s, e).pass;
      if (e.GcNext? && s.pass.awaited.None?) || (e.GcForget? && s.pass.awaited.Some?)
      then Remaining(t) < Remaining(s.pass) else t == s.pass
  {
  }

  // A close by id

  lemma CloseStep(s: State, e: Event, sid: Id)
    requires !(e.Touch? && e.sid == sid) && (sid in s.sessions ==> sid in s.closing)
    ensures var t := Step(s, e); sid in t.sessions ==> sid in t.closing
    ensures e.CloseEnd? && e.k < |s.closing| ==>
      multiset(Step(s, e).closing) == multiset(s.closing) - multiset{s.closing[e.k]}
  {
    if e.CloseEnd? && e.k < |s.closing| {
      assert s.closing == s.closing[..e.k] + [s.closing[e.k]] + s.closing[e.k + 1..];
    }
  }

  lemma {:induction false} CloseEndsLater(s: State, es: seq<Event>, sid: Id)
    requires NotTouched(es, sid) && (sid in s.sessions ==> sid in s.closing)
    ensures sid in Later(s, es).sessions ==> sid in Later(s, es).closing
  {
    hide Step;
    if es != [] {
      var init := es[..|es| - 1];
      assert forall i | 0 <= i < |init| :: init[i] == es[i];
      CloseEndsLater(s, init, sid);
      CloseStep(Later(s, init), es[|es| - 1], sid);
    }
  }

  /** A close by id, its upstream awaited amid anything else, ends with the session the id led to when it began gone. */
  lemma CloseForgets(s: State, oto: Id, es: seq<Event>)
    requires oto in s.index && NotTouched(es, s.index[oto])
    requires s.index[oto] !in Later(Step(s, CloseBegin(oto)), es).closing
    ensures s.index[oto] !in Later(Step(s, CloseBegin(oto)), es).sessions
  {
    CloseEndsLater(Step(s, CloseBegin(oto)), es, s.index[oto]);
  }

  /** A session the client uses while the collector awaits its upstream is dropped all the same, at whatever times. */
  lemma UsedMeanwhileIsDropped(sid: Id, oto: Id, t0: real, t1: real, t2: real)
    requires sid != NONE && t1 - t0 > IDLE_S && t2 >= t1
    ensures var es := [Touch(sid, oto, t0), GcBegin(t1, [sid]), GcNext, Touch(sid, oto, t2)];
      && sid in After(es).sessions && !Idle(After(es), sid, t1)
      && sid !in After(es + [GcForget]).sessions
  {
    var three := [Touch(sid, oto, t0), GcBegin(t1, [sid]), GcNext];
    var es := three + [Touch(sid, oto, t2)];
    assert es == [Touch(sid, oto, t0), GcBegin(t1, [sid]), GcNext, Touch(sid, oto, t2)];
    Awaited(sid, oto, t0, t1);
    AfterOne(three, Touch(sid, oto, t2));
    AfterOne(es, GcForget);
    hide After;
  }

  lemma Awaited(sid: Id, oto: Id, t0: real, t1: real)
    requires sid != NONE && t1 - t0 > IDLE_S
    ensures var s := After([Touch(sid, oto, t0), GcBegin(t1, [sid]), GcNext]);
      s.sessions == map[sid := Session(t0, oto)] && s.pass == Pass(t1, [], Some(sid))
  {
    var one := [Touch(sid, oto, t0)];
    var two := one + [GcBegin(t1, [sid])];
    assert two + [GcNext] == [Touch(sid, oto, t0), GcBegin(t1, [sid]), GcNext];
    assert [] + one == one;
    AfterOne([], Touch(sid, oto, t0));
    AfterOne(one, GcBegin(t1, [sid]));
    AfterOne(two, GcNext);
    hide After;
    assert StaleList(After(one), t1, [sid]) by { assert [sid][0] == sid; }
  }

  lemma AfterOne(es: seq<Event>, e: Event)
    ensures After(es + [e]) == Step(After(es), e) && After([]) == Empty()
  {
    hide Step;
    assert (es + [e])[..|es + [e]| - 1] == es;
  }

  // The module's state

  class Sessions {
    var sessions: map<Id, Session>
    var index: map<Id, Id>
    var pass: Pass
    var closing: seq<Id>
    ghost var trace: seq<Event>

    constructor ()
      ensures Valid() && trace == [] && View() == Empty()
    {
      sessions, index, pass, closing, trace := map[], map[], Pass(0.0, [], None), [], [];
    }

    function View(): State
      reads this
    {
      State(sessions, index, pass, closing)
    }

    ghost predicate Valid()
      reads this
    {
      View() == After(trace)
    }

    method TouchSession(sid: Id, oto: Id, now: real)
      requires Valid()
      modifies this
      ensures Valid() && trace == old(trace) + [Touch(sid, oto, now)]
    {
      AfterOne(trace, Touch(sid, oto, now));
      hide After;
      trace := trace + [Touch(sid, oto, now)];
      if sid == NONE { return; }
      var s := if sid in sessions then sessions[sid] else Session(now, oto);
      s := s.(last := now);
      if oto != NONE {
        s := s.(oto := oto);
        index := index[oto := sid];
      }
      sessions := sessions[sid := s];
    }

    method RefreshSession(sid: Id, now: real)
      requires Valid()
      modifies this
      ensures Valid() && trace == old(trace) + [Refresh(sid, now)]
    {
      AfterOne(trace, Refresh(sid, now));
      hide After;
      trace := trace + [Refresh(sid, now)];
      if sid in sessions { sessions := sessions[sid := sessions[sid].(last := now)]; }
    }

    /** _forget, of whichever event asks for it. */
    method Forget(sid: Id)
      modifies this`sessions, this`index
      ensures View() == Forgotten(old(View()), sid)
    {
      if sid in sessions {
        var oto := sessions[sid].oto;
        sessions := sessions - {sid};
        if oto != NONE && oto in index && index[oto] == sid { index := index - {oto}; }
      }
    }

    /** _stale_sids: exactly the sessions idle past the limit, each once. */
    method StaleSids(now: real) returns (order: seq<Id>)
      ensures StaleList(View(), now, order)
    {
      order := [];
      var left := sessions.Keys;
      while left != {}
        invariant left <= sessions.Keys
        invariant forall i | 0 <= i < |order| :: order[i] !in left && Idle(View(), order[i], now)
        invariant forall sid | sid in sessions.Keys - left && Idle(View(), sid, now) :: sid in order
        invariant forall i, j | 0 <= i < j < |order| :: order[i] != order[j]
        decreases left
      {
        var sid :| sid in left;
        left := left - {sid};
        if now - sessions[sid].last > IDLE_S { order := order + [sid]; }
      }
    }

    /** Whatever other tasks do while one awaits the upstream; no second pass begins. */
    method Others()
      requires Valid()
      modifies this
      ensures Valid() && old(trace) <= trace && pass == old(pass)
    {
      var count: int := *;
      while count > 0
        invariant Valid() && old(trace) <= trace && pass == old(pass)
      {
        var e: Event := *;
        if !e.GcBegin? && !e.GcNext? && !e.GcForget? {
          AfterOne(trace, e);
          hide After;
          var t := Step(View(), e);
          sessions, index, closing := t.sessions, t.index, t.closing;
          trace := trace + [e];
        }
        count := count - 1;
      }
    }

    /** _gc_pass: each listed session still known is dropped once its upstream has answered. */
    method GcPass(now: real)
      requires Valid() && Resting(pass)
      modifies this
      ensures Valid() && Resting(pass) && old(trace) < trace
    {
      hide After;
      var order := StaleSids(now);
      AfterOne(trace, GcBegin(now, order));
      pass := Pass(now, order, None);
      trace := trace + [GcBegin(now, order)];
      while pass.rest != []
        invariant Valid() && pass.awaited == None && old(trace) < trace
        decreases |pass.rest|
      {
        AfterOne(trace, GcNext);
        var sid := pass.rest[0];
        var known := sid in sessions;
        pass := Pass(pass.now, pass.rest[1..], if known then Some(sid) else None);
        trace := trace + [GcNext];
        if known {
          Others();
          AfterOne(trace, GcForget);
          Forget(sid);
          pass := pass.(awaited := None);
          trace := trace + [GcForget];
        }
      }
    }

    /** close_session_handler up to its await: the session its id leads to, to be forgotten after. */
    method BeginClose(oto: Id) returns (sid: Option<Id>)
      requires Valid()
      modifies this
      ensures Valid() && trace == old(trace) + [CloseBegin(oto)]
      ensures NeverRebinds(trace) && oto != NONE ==> sid == Newest(old(trace), oto)
    {
      ghost var before := trace;
      AfterOne(trace, CloseBegin(oto));
      hide After;
      trace := trace + [CloseBegin(oto)];
      sid := if oto in index then Some(index[oto]) else None;
      if oto in index { closing := closing + [index[oto]]; }
      if NeverRebinds(trace) && oto != NONE {
        assert trace[..|trace| - 1] == before;
        IndexIsNewest(before, oto);
      }
    }

    method EndClose(k: nat)
      requires Valid() && k < |closing|
      modifies this
      ensures Valid() && trace == old(trace) + [CloseEnd(k)]
    {
      AfterOne(trace, CloseEnd(k));
      hide After;
      var sid := closing[k];
      trace := trace + [CloseEnd(k)];
      Forget(sid);
      closing := closing[..k] + closing[k + 1..];
    }
  }
}
