/**
 The accept path of the phone daemon: connections that have not yet named their call are bounded per peer
 and in all, with a band only the configured PBX addresses may use. A step runs from one await to the next.
 */
module Admission {
  import opened Wrappers

  const PENDING_MAX := 64
  const PER_PEER_MAX := 8
  const PBX_RESERVE := 16

  /** An address, an IPv6 one as its upper and lower 64 bits. */
  datatype Addr = V4(bits: nat) | V6(hi: nat, lo: nat)

  datatype Host = Literal(addr: Addr) | Other(text: string)

  /** What a peer's connections are counted under. */
  datatype Key = Single(addr: Addr) | Net(hi: nat) | Text(text: string)

  /** _ip(): an IPv4-mapped IPv6 address is the IPv4 one. */
  function Unwrap(a: Addr): Addr {
    if a.V6? && a.hi == 0 && a.lo / 0x1_0000_0000 == 0xffff then V4(a.lo % 0x1_0000_0000) else a
  }

  function PeerKey(host: Host, pbx: set<Addr>): Key {
    match host
    case Other(text) => Text(text)
    case Literal(raw) =>
      var a := Unwrap(raw);
      if a.V4? || a in pbx then Single(a) else Net(a.hi)
  }

  predicate IsPbx(k: Key, pbx: set<Addr>) { k.Single? && k.addr in pbx }

  /** A key reads as a PBX exactly when the peer's address is one. */
  lemma PbxKeyIff(host: Host, pbx: set<Addr>)
    ensures IsPbx(PeerKey(host, pbx), pbx) <==> host.Literal? && Unwrap(host.addr) in pbx
  {
  }

  /** An IPv4 address is itself however it is written, plain or mapped into IPv6 (section 2.5.5.2 of RFC 4291). */
  lemma MappedIsItself(bits: nat)
    requires bits < 0x1_0000_0000
    ensures Unwrap(V4(bits)) == Unwrap(V6(0, 0xffff_0000_0000 + bits)) == V4(bits)
  {
  }

  /** No other address is read as another one. */
  lemma UnwrapIsOneToOne(a: Addr, b: Addr)
    requires Unwrap(a) == Unwrap(b) && a != b
    ensures Unwrap(a).V4? && (a.V6? || b.V6?)
  {
  }

  /** Two peers share a counter exactly when they are one address, or lie in one /64 with neither of them a PBX. */
  lemma SameCounterIff(a: Host, b: Host, pbx: set<Addr>)
    ensures PeerKey(a, pbx) == PeerKey(b, pbx) <==>
      if a.Literal? && b.Literal? then
        var x, y := Unwrap(a.addr), Unwrap(b.addr);
        x == y || (x.V6? && y.V6? && x !in pbx && y !in pbx && x.hi == y.hi)
      else a == b
  {
  }

  /** The connections in flight: admitted as a PBX's, or as anyone's. */
  datatype Flights = Flights(fromPbx: multiset<Key>, fromOthers: multiset<Key>)

  function Join(f: Flights, k: Key, asPbx: bool): Flights {
    if asPbx then f.(fromPbx := f.fromPbx + multiset{k}) else f.(fromOthers := f.fromOthers + multiset{k})
  }

  function Leave(f: Flights, k: Key, asPbx: bool): Flights {
    if asPbx then f.(fromPbx := f.fromPbx - multiset{k}) else f.(fromOthers := f.fromOthers - multiset{k})
  }

  /** Whether a connection counted under the key is in flight. */
  predicate Aboard(f: Flights, k: Key, asPbx: bool) {
    k in (if asPbx then f.fromPbx else f.fromOthers)
  }

  /** The counters, and the connections they stand for. */
  datatype State = State(total: nat, byPeer: map<Key, nat>, pbx: set<Addr>, flights: Flights)

  datatype Event = Connect(host: Host, room: bool) | Release(key: Key, asPbx: bool) | Refresh(pbx: set<Addr>)

  function Held(s: State, k: Key): nat { if k in s.byPeer then s.byPeer[k] else 0 }

  function Ceiling(k: Key, pbx: set<Addr>): nat {
    if IsPbx(k, pbx) then PENDING_MAX else PENDING_MAX - PBX_RESERVE
  }

  predicate Refused(s: State, k: Key) {
    s.total >= Ceiling(k, s.pbx) || Held(s, k) >= PER_PEER_MAX
  }

  function Admit(s: State, k: Key): State {
    s.(total := s.total + 1, byPeer := s.byPeer[k := Held(s, k) + 1], flights := Join(s.flights, k, IsPbx(k, s.pbx)))
  }

  function Drop(byPeer: map<Key, nat>, k: Key): map<Key, nat> {
    var held := if k in byPeer then byPeer[k] else 0;
    if held > 1 then byPeer[k := held - 1] else byPeer - {k}
  }

  function Released(s: State, k: Key, asPbx: bool): State
    requires s.total > 0
  {
    s.(total := s.total - 1, byPeer := Drop(s.byPeer, k), flights := Leave(s.flights, k, asPbx))
  }

  function Step(s: State, e: Event): State {
    match e
    case Connect(host, room) =>
      var k := PeerKey(host, s.pbx);
      if Refused(s, k) || !room then s else Admit(s, k)
    case Release(k, asPbx) =>
      if Aboard(s.flights, k, asPbx) && s.total > 0 then Released(s, k, asPbx) else s
    case Refresh(pbx) => s.(pbx := pbx)
  }

  function Start(pbx: set<Addr>): State { State(0, map[], pbx, Flights(multiset{}, multiset{})) }

  function Exec(pbx: set<Addr>, es: seq<Event>): State {
    if es == [] then Start(pbx) else Step(Exec(pbx, es[..|es| - 1]), es[|es| - 1])
  }

  /** The counters against the connections in flight, and the bounds. */
  predicate Accounted(s: State) {
    && s.total == |s.flights.fromPbx| + |s.flights.fromOthers| && s.total <= PENDING_MAX
    && |s.flights.fromOthers| <= PENDING_MAX - PBX_RESERVE
    && (forall k | k in s.byPeer :: 0 < s.byPeer[k] <= PER_PEER_MAX)
    && (forall k | k in s.byPeer :: s.byPeer[k] == s.flights.fromPbx[k] + s.flights.fromOthers[k])
    && (forall k | k in s.flights.fromPbx + s.flights.fromOthers :: k in s.byPeer)
  }

  /** A connection in flight that is released gives its place back, under its own key and no other. */
  lemma ReleaseGivesBack(s: State, k: Key, asPbx: bool)
    requires Accounted(s) && Aboard(s.flights, k, asPbx)
    ensures var t := Step(s, Release(k, asPbx));
      && t.total == s.total - 1 && Held(t, k) == Held(s, k) - 1
      && (forall j | j != k :: Held(t, j) == Held(s, j)) && t.pbx == s.pbx
  {
    FlightIsCounted(s, k, asPbx);
  }

  /** Admitted and released, a connection leaves the counters as they were. */
  lemma ReleaseUndoes(s: State, host: Host)
    requires Accounted(s) && !Refused(s, PeerKey(host, s.pbx))
    ensures var k := PeerKey(host, s.pbx);
      var t := Step(Step(s, Connect(host, true)), Release(k, IsPbx(k, s.pbx)));
      t.total == s.total && t.byPeer == s.byPeer && t.pbx == s.pbx
  {
    hide PeerKey, IsPbx;
  }

  /** The last refresh names the addresses in force. */
  lemma {:induction false} RefreshHolds(pbx: set<Addr>, es: seq<Event>, latest: set<Addr>, more: seq<Event>)
    requires forall i | 0 <= i < |more| :: !more[i].Refresh?
    ensures Exec(pbx, es + [Refresh(latest)] + more).pbx == latest
    decreases |more|
  {
    hide Admit, Released, PeerKey, Refused;
    var run := es + [Refresh(latest)] + more;
    if more == [] {
      assert run == es + [Refresh(latest)] && run[..|run| - 1] == es;
    } else {
      var init := more[..|more| - 1];
      assert run[..|run| - 1] == es + [Refresh(latest)] + init;
      RefreshHolds(pbx, es, latest, init);
      AdmitKeepsPbx();
    }
  }

  lemma AdmitKeepsPbx()
    ensures forall s: State, k: Key :: Admit(s, k).pbx == s.pbx
    ensures forall s: State, k: Key, asPbx: bool | s.total > 0 :: Released(s, k, asPbx).pbx == s.pbx
  {
  }

  lemma StepIsAccounted(s: State, e: Event)
    requires Accounted(s)
    ensures Accounted(Step(s, e))
  {
    hide Admit, Released, PeerKey, Refused;
    match e
    case Connect(host, room) =>
      AdmitIsAccounted(s, PeerKey(host, s.pbx));
    case Release(k, asPbx) =>
      if Aboard(s.flights, k, asPbx) && s.total > 0 { ReleaseIsAccounted(s, k, asPbx); }
    case Refresh(pbx) =>
  }

  lemma AdmitIsAccounted(s: State, k: Key)
    requires Accounted(s)
    ensures !Refused(s, k) ==> Accounted(Admit(s, k))
  {
    hide PeerKey, Join, IsPbx;
    var pbx := IsPbx(k, s.pbx);
    assert k !in s.byPeer ==> k !in s.flights.fromPbx + s.flights.fromOthers;
    JoinCounts(s.flights, k, pbx, k);
    if !Refused(s, k) {
      var t := Admit(s, k);
      forall j | j in t.byPeer
        ensures 0 < t.byPeer[j] <= PER_PEER_MAX && t.byPeer[j] == t.flights.fromPbx[j] + t.flights.fromOthers[j]
      {
        JoinCounts(s.flights, k, pbx, j);
      }
      forall j | j in t.flights.fromPbx + t.flights.fromOthers ensures j in t.byPeer {
        JoinCounts(s.flights, k, pbx, j);
        if j != k { assert j in s.flights.fromPbx + s.flights.fromOthers; }
      }
    }
  }

  lemma JoinCounts(f: Flights, k: Key, asPbx: bool, j: Key)
    ensures var g := Join(f, k, asPbx);
      && g.fromPbx[j] + g.fromOthers[j] == f.fromPbx[j] + f.fromOthers[j] + (if j == k then 1 else 0)
      && |g.fromPbx| == |f.fromPbx| + (if asPbx then 1 else 0)
      && |g.fromOthers| == |f.fromOthers| + (if asPbx then 0 else 1)
  {
  }

  lemma ReleaseIsAccounted(s: State, k: Key, asPbx: bool)
    requires Accounted(s) && s.total > 0 && Aboard(s.flights, k, asPbx)
    ensures Accounted(Released(s, k, asPbx))
  {
    hide IsPbx, PeerKey;
    if asPbx {
      assert |s.flights.fromPbx - multiset{k}| == |s.flights.fromPbx| - 1;
    } else {
      assert |s.flights.fromOthers - multiset{k}| == |s.flights.fromOthers| - 1;
    }
  }

  lemma FlightIsCounted(s: State, k: Key, asPbx: bool)
    requires Accounted(s) && Aboard(s.flights, k, asPbx)
    ensures s.total > 0 && k in s.byPeer && s.byPeer[k] > 0
  {
    assert k in s.flights.fromPbx + s.flights.fromOthers;
  }

  lemma {:induction false} RunIsAccounted(pbx: set<Addr>, es: seq<Event>)
    ensures Accounted(Exec(pbx, es))
  {
    hide Accounted, Step;
    if es != [] {
      RunIsAccounted(pbx, es[..|es| - 1]);
      StepIsAccounted(Exec(pbx, es[..|es| - 1]), es[|es| - 1]);
    } else {
      StartIsAccounted(pbx);
    }
  }

  lemma StartIsAccounted(pbx: set<Addr>)
    ensures Accounted(Start(pbx))
  {
  }

  /** The sum over the peers' counters. */
  ghost function Sum(m: map<Key, nat>): nat
    decreases |m|
  {
    if m == map[] then 0
    else
      var k :| k in m;
      m[k] + Sum(m - {k})
  }

  lemma {:induction false} SumTakesAny(m: map<Key, nat>, k: Key)
    requires k in m
    ensures Sum(m) == m[k] + Sum(m - {k})
    decreases |m|
  {
    var j :| j in m && Sum(m) == m[j] + Sum(m - {j});
    if j != k {
      SumTakesAny(m - {j}, k);
      SumTakesAny(m - {k}, j);
      assert m - {j} - {k} == m - {k} - {j};
    }
  }

  /** A peer's counter is its share of the connections, so the peers' counters add up to all of them. */
  lemma {:induction false} SumCountsConnections(m: map<Key, nat>, a: multiset<Key>, b: multiset<Key>)
    requires forall k | k in m :: m[k] == a[k] + b[k]
    requires forall k | k in a || k in b :: k in m
    ensures Sum(m) == |a| + |b|
    decreases |m|
  {
    if m == map[] {
      assert a == multiset{} && b == multiset{};
    } else {
      var k :| k in m;
      SumTakesAny(m, k);
      SumCountsConnections(m - {k}, a[k := 0], b[k := 0]);
      assert a == a[k := 0] + multiset{}[k := a[k]] && b == b[k := 0] + multiset{}[k := b[k]];
    }
  }

  /**
   Over every run of connects, reads, releases and refreshes of the PBX set: the total is the sum over the peers
   and the number of connections in flight, no peer holds more than 8, all hold 64 at most, and those not
   admitted as a PBX's 48 at most.
   */
  lemma AdmissionAccounting(pbx: set<Addr>, es: seq<Event>)
    ensures var s := Exec(pbx, es);
      && s.total == Sum(s.byPeer) == |s.flights.fromPbx| + |s.flights.fromOthers|
      && s.total <= 64 && |s.flights.fromOthers| <= 48 && (forall k | k in s.byPeer :: s.byPeer[k] <= 8)
  {
    RunIsAccounted(pbx, es);
    var s := Exec(pbx, es);
    SumCountsConnections(s.byPeer, s.flights.fromPbx, s.flights.fromOthers);
  }

  // The reserve, for a fixed set of PBX addresses

  predicate Unrefreshed(es: seq<Event>) {
    forall i | 0 <= i < |es| :: !es[i].Refresh?
  }

  lemma {:induction false} FixedSet(pbx: set<Addr>, es: seq<Event>)
    requires Unrefreshed(es)
    ensures Exec(pbx, es).pbx == pbx && forall k | k in Exec(pbx, es).flights.fromPbx :: IsPbx(k, pbx)
  {
    if es != [] {
      FixedSet(pbx, es[..|es| - 1]);
    }
  }

  /** A PBX's connect is refused only for what that PBX itself holds. */
  ghost predicate ReserveHolds(pbx: set<Addr>) {
    forall es: seq<Event>, a: Addr | Unrefreshed(es) && a in pbx ::
      Refused(Exec(pbx, es), Single(a)) ==> Held(Exec(pbx, es), Single(a)) >= PER_PEER_MAX
  }

  lemma TwoKeysBound(m: multiset<Key>, a: Key, b: Key, ca: nat, cb: nat)
    requires forall k | k in m :: k == a || k == b
    requires m[a] <= ca && m[b] <= cb && a != b
    ensures |m| <= ca + cb
  {
    assert m == multiset{}[a := m[a]] + multiset{}[b := m[b]];
  }

  lemma AtMostTwo(pbx: set<Addr>, a: Addr) returns (b: Addr)
    requires |pbx| <= 2 && a in pbx
    ensures b != a && forall x | x in pbx :: x == a || x == b
  {
    var rest := pbx - {a};
    if rest == {} {
      b := if a == V4(0) then V4(1) else V4(0);
    } else {
      b :| b in rest;
      assert |rest - {b}| == 0;
      assert rest - {b} == {};
    }
  }

  lemma ReserveForTwo(pbx: set<Addr>, es: seq<Event>, a: Addr)
    requires |pbx| <= 2 && Unrefreshed(es) && a in pbx
    ensures Refused(Exec(pbx, es), Single(a)) ==> Held(Exec(pbx, es), Single(a)) >= PER_PEER_MAX
  {
    var s := Exec(pbx, es);
    RunIsAccounted(pbx, es);
    FixedSet(pbx, es);
    var b := AtMostTwo(pbx, a);
    if Held(s, Single(a)) < PER_PEER_MAX {
      TwoKeysBound(s.flights.fromPbx, Single(a), Single(b), PER_PEER_MAX - 1, PER_PEER_MAX);
    }
  }

  function Repeat(e: Event, n: nat): seq<Event> {
    seq(n, _ => e)
  }

  lemma ExecAppend(pbx: set<Addr>, es: seq<Event>, e: Event)
    ensures Exec(pbx, es + [e]) == Step(Exec(pbx, es), e)
  {
    assert (es + [e])[..|es|] == es;
  }

  /** Eight connects of one peer with nothing pending, below its ceiling, are all admitted. */
  lemma {:induction false} FillPeer(pbx: set<Addr>, es: seq<Event>, a: Addr, n: nat)
    requires n <= PER_PEER_MAX && (a.V4? || a in pbx) && Unwrap(a) == a && Unrefreshed(es)
    requires Held(Exec(pbx, es), Single(a)) == 0
    requires Exec(pbx, es).total + n <= Ceiling(Single(a), pbx)
    ensures var t := Exec(pbx, es + Repeat(Connect(Literal(a), true), n));
      && Unrefreshed(es + Repeat(Connect(Literal(a), true), n))
      && t.total == Exec(pbx, es).total + n && Held(t, Single(a)) == n
      && forall k | k != Single(a) :: Held(t, k) == Held(Exec(pbx, es), k)
  {
    hide Exec, PeerKey;
    var e := Connect(Literal(a), true);
    FixedSet(pbx, es);
    if n == 0 {
      assert es + Repeat(e, 0) == es;
    } else {
      FillPeer(pbx, es, a, n - 1);
      var before := es + Repeat(e, n - 1);
      assert es + Repeat(e, n) == before + [e];
      assert Unrefreshed(before + [e]);
      FixedSet(pbx, before);
      OneMore(pbx, before, a);
    }
  }

  lemma OneMore(pbx: set<Addr>, es: seq<Event>, a: Addr)
    requires (a.V4? || a in pbx) && Unwrap(a) == a && Exec(pbx, es).pbx == pbx && !Refused(Exec(pbx, es), Single(a))
    ensures var s, t := Exec(pbx, es), Exec(pbx, es + [Connect(Literal(a), true)]);
      t.total == s.total + 1 && Held(t, Single(a)) == Held(s, Single(a)) + 1
      && forall k | k != Single(a) :: Held(t, k) == Held(s, k)
  {
    assert PeerKey(Literal(a), pbx) == Single(a);
    hide PeerKey, Exec, Refused;
    ExecAppend(pbx, es, Connect(Literal(a), true));
  }

  /** Connects that fill `peers` one after the other, eight each. */
  function Filling(peers: seq<Addr>): seq<Event> {
    if peers == [] then []
    else Filling(peers[..|peers| - 1]) + Repeat(Connect(Literal(peers[|peers| - 1]), true), PER_PEER_MAX)
  }

  predicate Distinct(peers: seq<Addr>) {
    forall i, j | 0 <= i < j < |peers| :: peers[i] != peers[j]
  }

  lemma {:induction false} FillAll(pbx: set<Addr>, peers: seq<Addr>)
    requires Distinct(peers) && |peers| <= 8
    requires forall i | 0 <= i < |peers| :: Unwrap(peers[i]) == peers[i]
    requires forall i | 0 <= i < |peers| :: if i < 6 then peers[i].V4? && peers[i] !in pbx else peers[i] in pbx
    ensures Unrefreshed(Filling(peers)) && Exec(pbx, Filling(peers)).total == 8 * |peers|
    ensures forall a | a !in peers :: Held(Exec(pbx, Filling(peers)), Single(a)) == 0
  {
    if peers != [] {
      var init, a := peers[..|peers| - 1], peers[|peers| - 1];
      FillAll(pbx, init);
      assert a !in init;
      FillPeer(pbx, Filling(init), a, PER_PEER_MAX);
    }
  }

  /** With a third PBX the band can be full of the other two: the reserve holds exactly for two addresses at most. */
  lemma ReserveHoldsIff(pbx: set<Addr>, others: seq<Addr>)
    requires |others| == 6 && Distinct(others) && forall i | 0 <= i < 6 :: others[i].V4? && others[i] !in pbx
    requires forall a | a in pbx :: Unwrap(a) == a
    ensures ReserveHolds(pbx) <==> |pbx| <= 2
  {
    if |pbx| <= 2 {
      forall es: seq<Event>, a: Addr | Unrefreshed(es) && a in pbx
        ensures Refused(Exec(pbx, es), Single(a)) ==> Held(Exec(pbx, es), Single(a)) >= PER_PEER_MAX
      {
        ReserveForTwo(pbx, es, a);
      }
    } else {
      var a :| a in pbx;
      assert |pbx - {a}| == |pbx| - 1;
      var b :| b in pbx - {a};
      assert |pbx - {a} - {b}| == |pbx| - 2;
      var c :| c in pbx - {a} - {b};
      var peers := others + [a, b];
      FillAll(pbx, peers);
      FixedSet(pbx, Filling(peers));
      assert c !in peers;
      assert Refused(Exec(pbx, Filling(peers)), Single(c)) && Held(Exec(pbx, Filling(peers)), Single(c)) == 0;
    }
  }

  // The code

  class Listener {
    var pendingTotal: nat
    var pendingByPeer: map<Key, nat>
    var pbx: set<Addr>
    ghost var flights: Flights

    ghost predicate Valid()
      reads this
    {
      Accounted(View())
    }

    ghost function View(): State
      reads this
    {
      State(pendingTotal, pendingByPeer, pbx, flights)
    }

    constructor (pbx: set<Addr>)
      ensures Valid() && View() == Start(pbx)
    {
      pendingTotal, pendingByPeer, this.pbx := 0, map[], pbx;
      flights := Flights(multiset{}, multiset{});
      new;
      StartIsAccounted(pbx);
    }

    /** Counts one more connection under its key. */
    method CountIn(key: Key)
      requires Valid() && !Refused(View(), key)
      modifies this`pendingTotal, this`pendingByPeer, this`flights
      ensures Valid() && View() == Admit(old(View()), key)
    {
      hide Accounted, IsPbx, Join;
      AdmitIsAccounted(View(), key);
      var held := if key in pendingByPeer then pendingByPeer[key] else 0;
      pendingTotal, pendingByPeer := pendingTotal + 1, pendingByPeer[key := held + 1];
      flights := Join(flights, key, IsPbx(key, pbx));
    }

    /** The accept path up to the first read: the key to release, when the connection was let in. */
    method Accept(host: Host, room: bool) returns (admitted: Option<Key>)
      requires Valid()
      modifies this
      ensures Valid() && View() == Step(old(View()), Connect(host, room))
      ensures admitted == if Refused(old(View()), PeerKey(host, pbx)) || !room then None else Some(PeerKey(host, pbx))
      ensures admitted.Some? <==>
        && room && old(Held(View(), PeerKey(host, pbx))) < 8
        && old(pendingTotal) < if host.Literal? && Unwrap(host.addr) in pbx then 64 else 48
    {
      PbxKeyIff(host, pbx);
      hide Accounted, PeerKey, Admit;
      var key := PeerKey(host, pbx);
      var ceiling := if key.Single? && key.addr in pbx then PENDING_MAX else PENDING_MAX - PBX_RESERVE;
      if pendingTotal >= ceiling || (if key in pendingByPeer then pendingByPeer[key] else 0) >= PER_PEER_MAX {
        return None;
      }
      if !room {
        return None;
      }
      CountIn(key);
      return Some(key);
    }

    /** One connection fewer under the key; a peer with none leaves the table. */
    method DropOne(key: Key)
      modifies this`pendingByPeer
      ensures pendingByPeer == Drop(old(pendingByPeer), key)
    {
      var held: int := if key in pendingByPeer then pendingByPeer[key] else 0;
      var left := held - 1;
      if left > 0 {
        pendingByPeer := pendingByPeer[key := left];
      } else {
        pendingByPeer := pendingByPeer - {key};
      }
    }

    /** The read ended, well or badly: the connection no longer counts. */
    method Done(key: Key, ghost asPbx: bool)
      requires Valid() && Aboard(flights, key, asPbx)
      modifies this`pendingTotal, this`pendingByPeer, this`flights
      ensures Valid() && View() == Step(old(View()), Release(key, asPbx))
    {
      hide Accounted, Drop, PeerKey, Refused, Admit, Leave, Aboard;
      ghost var before := View();
      FlightIsCounted(before, key, asPbx);
      ReleaseIsAccounted(before, key, asPbx);
      pendingTotal := pendingTotal - 1;
      DropOne(key);
      flights := Leave(flights, key, asPbx);
      assert View() == Released(before, key, asPbx);
    }
  }
}
