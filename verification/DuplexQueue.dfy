/**
 The duplex session's socket: one writer drains a queue that a barge-in flushes of its audio, and the
 microphone's bounded backlog. A step runs from one await to the next.
 */
module DuplexQueue {
  import opened Wrappers

  /** What the writer may send; `at` numbers the items in the order they were queued. */
  datatype Item =
    | Audio(pcm: nat, at: nat)
    | Event(payload: nat, at: nat)
    | FlushFrame(at: nat)

  /** A flush: how much had left the queue before it, and its own number. */
  datatype Cut = Cut(left: nat, at: nat)

  datatype Out = Out(
    queue: seq<Item>,
    inHand: Option<Item>,      // taken by the writer, its send not finished
    lost: Option<Item>,        // the item whose send never finished, at the writer's end
    sent: seq<Item>,
    unfinished: nat,           // what join() waits on
    closed: bool,
    writing: bool,
    next: nat,                 // the number of the next item
    accepted: seq<Item>,       // every event ever queued, flush frames included
    cuts: seq<Cut>)

  const OPENED := Out([], None, None, [], 0, false, true, 0, [], [])

  datatype Step = SendAudio(pcm: nat) | SendEvent(payload: nat) | Take | Sent | SendFails | Cancelled | Flush | Close

  function Put(s: Out, item: Item): Out {
    s.(queue := s.queue + [item], unfinished := s.unfinished + 1, next := s.next + 1,
       accepted := if item.Audio? then s.accepted else s.accepted + [item])
  }

  /** The events among the items, in order. */
  function Events(items: seq<Item>): (r: seq<Item>)
    ensures |r| <= |items|
  {
    if items == [] then []
    else Events(items[..|items| - 1]) + if items[|items| - 1].Audio? then [] else [items[|items| - 1]]
  }

  /** Barge-in: the queued audio goes, the queued events stay, and the client is told after them. */
  function Flushed(s: Out): Out {
    var kept := Events(s.queue);
    s.(queue := kept + [FlushFrame(s.next)],
       unfinished := if s.unfinished >= |s.queue| then s.unfinished - |s.queue| + |kept| + 1 else |kept| + 1,
       next := s.next + 1, accepted := s.accepted + [FlushFrame(s.next)],
       cuts := s.cuts + [Cut(|s.sent| + |Hand(s)|, s.next)])
  }

  /** The item between the queue and the wire: in the writer's hand, or where it was lost. */
  function Hand(s: Out): (r: seq<Item>)
    ensures |r| <= 1
  {
    if s.inHand.Some? then [s.inHand.value] else if s.lost.Some? then [s.lost.value] else []
  }

  /** The writer ends with its item unsent; its finally still counts the item done. */
  function WriterEnds(s: Out): Out {
    s.(writing := false, inHand := None, lost := s.inHand,
       unfinished := if s.inHand.Some? && s.unfinished > 0 then s.unfinished - 1 else s.unfinished)
  }

  function Do(s: Out, e: Step): Out {
    match e
    case SendAudio(pcm) => if s.closed then s else Put(s, Audio(pcm, s.next))
    case SendEvent(payload) => if s.closed then s else Put(s, Event(payload, s.next))
    case Take =>
      if !s.writing || s.inHand.Some? || s.queue == [] then s
      else s.(inHand := Some(s.queue[0]), queue := s.queue[1..])
    case Sent =>
      if s.inHand.None? || s.unfinished == 0 then s
      else s.(sent := s.sent + [s.inHand.value], inHand := None, unfinished := s.unfinished - 1)
    case SendFails => if s.inHand.Some? then WriterEnds(s).(closed := true) else s
    case Cancelled => if s.writing then WriterEnds(s) else s
    case Flush => if s.closed then s else Flushed(s)
    case Close => s.(closed := true)
  }

  function Exec(es: seq<Step>): Out {
    if es == [] then OPENED else Do(Exec(es[..|es| - 1]), es[|es| - 1])
  }

  /** Everything that left the queue or is still in it, first to last. */
  function Line(s: Out): seq<Item> {
    s.sent + Hand(s) + s.queue
  }

  predicate Increasing(items: seq<Item>) {
    forall i, j | 0 <= i < j < |items| :: items[i].at < items[j].at
  }

  predicate Below(items: seq<Item>, next: nat) {
    forall i | 0 <= i < |items| :: items[i].at < next
  }

  /** Audio that leaves the queue after a flush was queued after it. */
  predicate CutHolds(line: seq<Item>, c: Cut) {
    forall i | c.left <= i < |line| && line[i].Audio? :: line[i].at > c.at
  }

  predicate Conserved(s: Out) {
    && Events(Line(s)) == s.accepted
    && Increasing(Line(s)) && Below(Line(s), s.next)
    && s.unfinished == |s.queue| + (if s.inHand.Some? then 1 else 0)
    && (s.inHand.Some? ==> s.lost.None? && s.writing)
    && (s.lost.Some? ==> !s.writing)
    && (forall k | 0 <= k < |s.cuts| :: s.cuts[k].left <= |s.sent| + |Hand(s)| && s.cuts[k].at < s.next)
    && (forall k | 0 <= k < |s.cuts| :: CutHolds(Line(s), s.cuts[k]))
  }

  lemma {:induction false} EventsConcat(a: seq<Item>, b: seq<Item>)
    ensures Events(a + b) == Events(a) + Events(b)
  {
    if b == [] {
      assert a + b == a;
    } else {
      EventsConcat(a, b[..|b| - 1]);
      assert (a + b)[..|a + b| - 1] == a + b[..|b| - 1];
    }
  }

  lemma EventsOfOne(x: Item)
    ensures Events([x]) == if x.Audio? then [] else [x]
  {
    assert [x][..0] == [];
  }

  lemma {:induction false} EventsAreEvents(items: seq<Item>)
    ensures forall i | 0 <= i < |Events(items)| :: !Events(items)[i].Audio? && Events(items)[i] in items
  {
    if items != [] {
      var init, last := items[..|items| - 1], items[|items| - 1];
      EventsAreEvents(init);
      assert items == init + [last];
    }
  }

  lemma {:induction false} EventsOfEvents(items: seq<Item>)
    ensures Events(Events(items)) == Events(items)
  {
    if items != [] {
      var init, last := items[..|items| - 1], items[|items| - 1];
      EventsOfEvents(init);
      EventsConcat(Events(init), if last.Audio? then [] else [last]);
      EventsOfOne(last);
    }
  }

  predicate Before(a: seq<Item>, b: seq<Item>) {
    forall i, j | 0 <= i < |a| && 0 <= j < |b| :: a[i].at < b[j].at
  }

  lemma IncreasingJoins(a: seq<Item>, b: seq<Item>)
    ensures Increasing(a + b) <==> Increasing(a) && Increasing(b) && Before(a, b)
  {
    var c := a + b;
    if Increasing(c) {
      forall i, j | 0 <= i < |a| && 0 <= j < |b| ensures a[i].at < b[j].at {
        assert c[i].at < c[|a| + j].at;
      }
      assert forall i | 0 <= i < |a| :: c[i] == a[i];
      forall i, j | 0 <= i < j < |b| ensures b[i].at < b[j].at {
        assert c[|a| + i].at < c[|a| + j].at;
      }
    }
  }

  /** Keeping the events keeps their order and their numbers. */
  lemma {:induction false} EventsKeepOrder(items: seq<Item>)
    requires Increasing(items)
    ensures Increasing(Events(items))
  {
    if items != [] {
      var init, last := items[..|items| - 1], items[|items| - 1];
      EventsKeepOrder(init);
      EventsAreEvents(init);
      var kept := Events(init);
      forall i | 0 <= i < |kept| ensures kept[i].at < last.at {
        assert kept[i] in init;
      }
      IncreasingJoins(kept, if last.Audio? then [] else [last]);
    }
  }

  lemma PutConserves(s: Out, item: Item)
    requires Conserved(s) && item.at == s.next
    ensures Conserved(Put(s, item))
  {
    hide Events, Increasing;
    var s', line := Put(s, item), Line(s);
    assert Line(s') == line + [item];
    EventsConcat(line, [item]);
    EventsOfOne(item);
    IncreasingJoins(line, [item]);
    assert Increasing([item]) by { OneIncreases(item); }
    forall k | 0 <= k < |s'.cuts| ensures CutHolds(line + [item], s'.cuts[k]) {
      assert CutHolds(line, s.cuts[k]);
    }
  }

  lemma OneIncreases(item: Item)
    ensures Increasing([item])
  {
  }

  lemma FlushConserves(s: Out)
    requires Conserved(s)
    ensures Conserved(Flushed(s))
  {
    hide Events, Increasing, CutHolds;
    var s', left, kept, frame := Flushed(s), s.sent + Hand(s), Events(s.queue), FlushFrame(s.next);
    assert Line(s) == left + s.queue && Line(s') == left + (kept + [frame]);
    FlushKeepsEvents(left, s.queue, frame);
    FlushKeepsOrder(left, s.queue, frame);
    EventsAreEvents(s.queue);
    forall k | 0 <= k < |s'.cuts| ensures CutHolds(Line(s'), s'.cuts[k]) {
      if k < |s.cuts| {
        assert CutHolds(Line(s), s.cuts[k]);
        CutSurvivesFlush(left, s.queue, kept + [frame], s.cuts[k]);
      } else {
        CutOfEvents(left, kept + [frame], s'.cuts[k]);
      }
    }
  }

  lemma CutSurvivesFlush(left: seq<Item>, queue: seq<Item>, kept: seq<Item>, c: Cut)
    requires CutHolds(left + queue, c) && forall i | 0 <= i < |kept| :: !kept[i].Audio?
    ensures CutHolds(left + kept, c)
  {
    assert forall i | 0 <= i < |left| :: (left + queue)[i] == left[i] == (left + kept)[i];
  }

  lemma CutOfEvents(left: seq<Item>, kept: seq<Item>, c: Cut)
    requires c.left == |left| && forall i | 0 <= i < |kept| :: !kept[i].Audio?
    ensures CutHolds(left + kept, c)
  {
  }

  lemma FlushKeepsEvents(left: seq<Item>, queue: seq<Item>, frame: Item)
    requires !frame.Audio?
    ensures Events(left + (Events(queue) + [frame])) == Events(left + queue) + [frame]
  {
    hide Events;
    EventsConcat(left, Events(queue) + [frame]);
    EventsConcat(Events(queue), [frame]);
    EventsOfOne(frame);
    EventsConcat(left, queue);
    EventsOfEvents(queue);
    assert Events(left) + (Events(queue) + [frame]) == (Events(left) + Events(queue)) + [frame];
  }

  lemma FlushKeepsOrder(left: seq<Item>, queue: seq<Item>, frame: Item)
    requires Increasing(left + queue) && Below(left + queue, frame.at)
    ensures var line := left + (Events(queue) + [frame]); Increasing(line) && Below(line, frame.at + 1)
  {
    hide Events, Increasing;
    var kept, all := Events(queue), left + queue;
    IncreasingJoins(left, queue);
    EventsKeepOrder(queue);
    EventsAreEvents(queue);
    assert forall i | 0 <= i < |left| :: left[i] == all[i] && left[i].at < frame.at;
    forall j | 0 <= j < |kept|
      ensures kept[j].at < frame.at && forall i | 0 <= i < |left| :: left[i].at < kept[j].at
    {
      assert kept[j] in queue;
      var k :| 0 <= k < |queue| && queue[k] == kept[j];
      assert all[|left| + k] == kept[j];
    }
    OneIncreases(frame);
    IncreasingJoins(kept, [frame]);
    IncreasingJoins(left, kept + [frame]);
  }

  lemma DoConserves(s: Out, e: Step)
    requires Conserved(s)
    ensures Conserved(Do(s, e))
  {
    hide Events, Increasing, CutHolds, Below, Put, Flushed;
    match e
    case SendAudio(pcm) => PutConserves(s, Audio(pcm, s.next));
    case SendEvent(payload) => PutConserves(s, Event(payload, s.next));
    case Flush => FlushConserves(s);
    case Take =>
      if s.queue != [] { assert s.queue == [s.queue[0]] + s.queue[1..]; }
      assert Line(Do(s, e)) == Line(s);
    case _ =>
      assert Line(Do(s, e)) == Line(s);
  }

  lemma {:induction false} RunConserves(es: seq<Step>)
    ensures Conserved(Exec(es))
  {
    hide Conserved, Do;
    if es != [] {
      RunConserves(es[..|es| - 1]);
      DoConserves(Exec(es[..|es| - 1]), es[|es| - 1]);
    } else {
      NothingConserved();
    }
  }

  lemma NothingConserved()
    ensures Conserved(OPENED)
  {
    assert Line(OPENED) == [];
  }

  /**
   For every interleaving of sends, writer steps, flushes, a failed send and a close: the events sent, in hand and
   queued are exactly the events queued, in order; what leaves the queue leaves it first in first out; no audio queued
   before a flush leaves the queue after it; and join() counts exactly the queue and the item in hand.
   */
  lemma FlushConservation(es: seq<Step>)
    ensures var s := Exec(es);
      && Events(s.sent + Hand(s) + s.queue) == s.accepted
      && Increasing(s.sent + Hand(s) + s.queue)
      && (forall k, i | 0 <= k < |s.cuts| && s.cuts[k].left <= i < |s.sent| && s.sent[i].Audio? ::
            s.sent[i].at > s.cuts[k].at)
      && s.unfinished == |s.queue| + (if s.inHand.Some? then 1 else 0)
  {
    RunConserves(es);
    var s := Exec(es);
    hide Events, Increasing, Exec;
    forall k, i | 0 <= k < |s.cuts| && s.cuts[k].left <= i < |s.sent| && s.sent[i].Audio?
      ensures s.sent[i].at > s.cuts[k].at
    {
      assert CutHolds(Line(s), s.cuts[k]) && Line(s)[i] == s.sent[i];
    }
  }

  lemma CutsStay(s: Out, e: Step)
    ensures s.cuts <= Do(s, e).cuts
  {
    hide Events;
  }

  lemma {:induction false} CutsStand(es: seq<Step>, more: seq<Step>)
    ensures Exec(es).cuts <= Exec(es + more).cuts
    decreases |more|
  {
    hide Do;
    if more == [] {
      assert es + more == es;
    } else {
      var init := more[..|more| - 1];
      assert (es + more)[..|es + more| - 1] == es + init;
      CutsStand(es, init);
      CutsStay(Exec(es + init), more[|more| - 1]);
    }
  }

  /** After a barge-in over an open link the client hears no audio queued before it but what had left the queue. */
  lemma FlushSilences(es: seq<Step>, more: seq<Step>, i: nat)
    requires !Exec(es).closed
    requires var t := Exec(es + [Flush] + more);
      |Exec(es).sent| + |Hand(Exec(es))| <= i < |t.sent| && t.sent[i].Audio?
    ensures Exec(es + [Flush] + more).sent[i].at >= Exec(es).next
  {
    var s, t := Exec(es), Exec(es + [Flush] + more);
    FlushIsNoted(es);
    CutsStand(es + [Flush], more);
    FlushConservation(es + [Flush] + more);
    hide Exec, Hand, Events, Increasing;
    var k := |s.cuts|;
    assert t.cuts[k] == Exec(es + [Flush]).cuts[k];
  }

  lemma FlushIsNoted(es: seq<Step>)
    requires !Exec(es).closed
    ensures var s := Exec(es); Exec(es + [Flush]).cuts == s.cuts + [Cut(|s.sent| + |Hand(s)|, s.next)]
  {
    hide Events;
    assert (es + [Flush])[..|es|] == es;
  }

  /** A step loses nothing but what a flush is for: the audio still queued. */
  lemma LineChanges(s: Out, e: Step)
    requires Conserved(s)
    ensures var line, after := Line(s), Line(Do(s, e));
      if e.SendAudio? && !s.closed then after == line + [Audio(e.pcm, s.next)]
      else if e.SendEvent? && !s.closed then after == line + [Event(e.payload, s.next)]
      else if e.Flush? && !s.closed then after == s.sent + Hand(s) + (Events(s.queue) + [FlushFrame(s.next)])
      else after == line
  {
    hide Events, Increasing, CutHolds, Below;
    if e.Take? && s.queue != [] { assert s.queue == [s.queue[0]] + s.queue[1..]; }
  }

  /** What was queued since the last flush, in order. */
  function SinceFlush(es: seq<Step>): seq<Item> {
    if es == [] then []
    else
      var s, e := Exec(es[..|es| - 1]), es[|es| - 1];
      var before := SinceFlush(es[..|es| - 1]);
      if s.closed then before
      else if e.Flush? then []
      else if e.SendAudio? then before + [Audio(e.pcm, s.next)]
      else if e.SendEvent? then before + [Event(e.payload, s.next)]
      else before
  }

  predicate EndsWith(line: seq<Item>, tail: seq<Item>) {
    |tail| <= |line| && line[|line| - |tail|..] == tail
  }

  /** All of it, audio too, is sent, in hand or queued, in that order and last. */
  lemma {:induction false} QueuedSinceFlushStands(es: seq<Step>)
    ensures var s := Exec(es); EndsWith(s.sent + Hand(s) + s.queue, SinceFlush(es))
  {
    hide Do, Exec, Conserved, EndsWith;
    if es != [] {
      var init, e := es[..|es| - 1], es[|es| - 1];
      var s, tail := Exec(init), SinceFlush(init);
      QueuedSinceFlushStands(init);
      RunConserves(init);
      LineChanges(s, e);
      ExecLast(es);
      NothingIsTail(Line(Exec(es)));
      TailGrows(Line(s), tail, Audio(if e.SendAudio? then e.pcm else 0, s.next));
      TailGrows(Line(s), tail, Event(if e.SendEvent? then e.payload else 0, s.next));
    } else {
      NothingIsTail(Line(Exec(es)));
    }
  }

  lemma ExecLast(es: seq<Step>)
    requires es != []
    ensures Exec(es) == Do(Exec(es[..|es| - 1]), es[|es| - 1])
  {
  }

  lemma NothingIsTail(line: seq<Item>)
    ensures EndsWith(line, [])
  {
  }

  lemma TailGrows(line: seq<Item>, tail: seq<Item>, item: Item)
    requires EndsWith(line, tail)
    ensures EndsWith(line + [item], tail + [item])
  {
    assert (line + [item])[|line| - |tail|..] == line[|line| - |tail|..] + [item];
  }

  // What reaches the client

  /** n rounds of the writer. */
  function Rounds(n: nat): seq<Step> { if n == 0 then [] else [Take, Sent] + Rounds(n - 1) }

  function Onward(s: Out, es: seq<Step>): Out
    decreases |es|
  {
    if es == [] then s else Onward(Do(s, es[0]), es[1..])
  }

  lemma OneRound(s: Out)
    requires Conserved(s) && s.writing && s.inHand.None? && s.queue != []
    ensures var t := Do(Do(s, Take), Sent);
      && Conserved(t) && t.writing && t.inHand.None?
      && t.sent == s.sent + [s.queue[0]] && t.queue == s.queue[1..]
  {
    DoConserves(s, Take);
    DoConserves(Do(s, Take), Sent);
    assert s.unfinished > 0;
    hide Conserved;
  }

  lemma OnwardTwo(s: Out, a: Step, b: Step, rest: seq<Step>)
    ensures Onward(s, [a, b] + rest) == Onward(Do(Do(s, a), b), rest)
  {
    hide Do;
    assert ([a, b] + rest)[1..] == [b] + rest && ([b] + rest)[1..] == rest;
  }

  lemma RoundsUnfold(n: nat)
    ensures Rounds(0) == [] && (n > 0 ==> Rounds(n) == [Take, Sent] + Rounds(n - 1))
  {
  }

  lemma OnwardNothing(s: Out)
    ensures Onward(s, []) == s
  {
  }

  lemma NothingDue(s: Out)
    requires Conserved(s) && s.inHand.None? && s.queue == []
    ensures s.unfinished == 0
  {
  }

  lemma HeadFirst(a: seq<Item>, q: seq<Item>)
    requires q != []
    ensures (a + [q[0]]) + q[1..] == a + q
  {
  }

  /** Left to itself a writer that is up sends all there is, in order, and join() is done. */
  lemma {:induction false} WriterDelivers(s: Out)
    requires Conserved(s) && s.writing && s.inHand.None?
    ensures var t := Onward(s, Rounds(|s.queue|));
      t.sent == s.sent + s.queue && t.queue == [] && t.unfinished == 0
    decreases |s.queue|
  {
    hide Do, Conserved, Onward, Rounds;
    if s.queue == [] {
      RoundsUnfold(0);
      OnwardNothing(s);
      NothingDue(s);
    } else {
      OneRound(s);
      RoundsUnfold(|s.queue|);
      OnwardTwo(s, Take, Sent, Rounds(|s.queue| - 1));
      WriterDelivers(Do(Do(s, Take), Sent));
      HeadFirst(s.sent, s.queue);
    }
  }

  lemma {:induction false} ExecOnward(es: seq<Step>, more: seq<Step>)
    ensures Exec(es + more) == Onward(Exec(es), more)
    decreases |more|
  {
    hide Do;
    if more == [] {
      assert es + more == es;
    } else {
      assert es + more == (es + [more[0]]) + more[1..];
      assert (es + [more[0]])[..|es|] == es;
      ExecOnward(es + [more[0]], more[1..]);
    }
  }

  /** A closed link queues nothing more, and no flush takes anything from it. */
  lemma {:induction false} ClosedQueuesNothing(s: Out, more: seq<Step>)
    requires Conserved(s) && s.closed
    ensures Onward(s, more).closed && Line(Onward(s, more)) == Line(s)
    decreases |more|
  {
    if more != [] {
      LineChanges(s, more[0]);
      DoConserves(s, more[0]);
      StaysClosed(s, more[0]);
      hide Do, Conserved, Line;
      ClosedQueuesNothing(Do(s, more[0]), more[1..]);
    }
  }

  lemma StaysClosed(s: Out, e: Step)
    requires s.closed
    ensures Do(s, e).closed
  {
  }

  /** A writer that ended sends nothing more; its item is not sent, and stands between what was and what is queued. */
  lemma {:induction false} EndedSendsNothing(s: Out, more: seq<Step>)
    requires !s.writing && s.inHand.None?
    ensures Onward(s, more).sent == s.sent && !Onward(s, more).writing
    decreases |more|
  {
    if more != [] {
      EndedSendsNothing(Do(s, more[0]), more[1..]);
    }
  }

  /** After a close or a failed send, over every run that follows: the link is closed and its line stands as it was. */
  lemma CloseIsFinal(es: seq<Step>, end: Step, more: seq<Step>)
    requires end.Close? || (end.SendFails? && Exec(es).inHand.Some?)
    ensures var s, t := Exec(es), Exec(es + [end] + more);
      t.closed && Line(t) == Line(s) && (end.SendFails? ==> t.sent == s.sent && !t.writing)
  {
    var s := Exec(es);
    assert (es + [end])[..|es|] == es;
    RunConserves(es);
    DoConserves(s, end);
    LineChanges(s, end);
    ExecOnward(es + [end], more);
    ClosedQueuesNothing(Do(s, end), more);
    if end.SendFails? { EndedSendsNothing(Do(s, end), more); }
    hide Conserved, Line;
  }

  /** A writer cancelled at any moment has ended, its item unsent. */
  lemma CancelEndsWriter(es: seq<Step>, more: seq<Step>)
    ensures var t := Exec(es + [Cancelled] + more); t.sent == Exec(es).sent && !t.writing
  {
    var s := Exec(es);
    assert (es + [Cancelled])[..|es|] == es;
    RunConserves(es);
    ExecOnward(es + [Cancelled], more);
    EndedOnCancel(es);
    EndedSendsNothing(Do(s, Cancelled), more);
  }

  /** Only a writer that is up holds an item. */
  lemma {:induction false} EndedOnCancel(es: seq<Step>)
    ensures var t := Do(Exec(es), Cancelled); !t.writing && t.inHand.None?
  {
    RunConserves(es);
  }

  // The microphone's backlog

  const BACKLOG := 100

  /** A frame numbered in the order it came, or the end-of-stream mark. */
  datatype Mic = Mic(
    queue: seq<Option<nat>>, waiting: bool, ended: bool, closed: bool, muted: bool,
    arrived: nat,               // unmuted frames so far: frame k is the k-th
    delivered: seq<nat>, drops: nat,
    dropped: seq<Drop>)         // every frame evicted, and how many had arrived when it was

  datatype Drop = Drop(frame: nat, at: nat)

  const LISTENING := Mic([], false, false, false, false, 0, [], 0, [])

  datatype MicStep = Frame | Mute(on: bool) | ReadFrame | Resume | CloseMic

  /** The oldest goes when the backlog is full. */
  function Enqueue(m: Mic): Mic {
    var full := |m.queue| >= BACKLOG;
    m.(queue := (if full then m.queue[1..] else m.queue) + [Some(m.arrived)], arrived := m.arrived + 1,
       drops := m.drops + if full then 1 else 0,
       dropped := m.dropped + if full && m.queue[0].Some? then [Drop(m.queue[0].value, m.arrived)] else [])
  }

  function TakeHead(m: Mic): Mic
    requires m.queue != []
  {
    var rest := m.(queue := m.queue[1..], waiting := false);
    if m.queue[0].None? then rest.(ended := true) else rest.(delivered := m.delivered + [m.queue[0].value])
  }

  function MicDo(m: Mic, e: MicStep): Mic {
    match e
    case Frame => if m.muted then m else Enqueue(m)
    case Mute(on) => m.(muted := on)
    case ReadFrame =>
      if m.waiting || m.ended then m
      else if m.queue != [] then TakeHead(m)
      else if m.closed then m.(ended := true)
      else m.(waiting := true)
    case Resume => if m.waiting && m.queue != [] then TakeHead(m) else m
    case CloseMic =>
      if m.closed then m
      else m.(closed := true, queue := if |m.queue| >= BACKLOG then m.queue else m.queue + [None])
  }

  function MicExec(es: seq<MicStep>): Mic {
    if es == [] then LISTENING else MicDo(MicExec(es[..|es| - 1]), es[|es| - 1])
  }

  /** The frames of the backlog, without the end mark. */
  function Frames(q: seq<Option<nat>>): seq<nat> {
    if q == [] then [] else (if q[0].None? then [] else [q[0].value]) + Frames(q[1..])
  }

  /** The numbers from `lo` up to `hi`. */
  function Range(lo: nat, hi: nat): seq<nat>
    requires lo <= hi
  {
    seq(hi - lo, i requires 0 <= i => lo + i)
  }

  lemma {:induction false} FramesConcat(a: seq<Option<nat>>, b: seq<Option<nat>>)
    ensures Frames(a + b) == Frames(a) + Frames(b)
  {
    hide Frames;
    FramesUnfold(a);
    if a == [] {
      assert a + b == b;
    } else {
      FramesUnfold(a + b);
      FramesConcat(a[1..], b);
      assert (a + b)[1..] == a[1..] + b;
    }
  }

  lemma FramesUnfold(q: seq<Option<nat>>)
    ensures Frames(q) == if q == [] then [] else (if q[0].None? then [] else [q[0].value]) + Frames(q[1..])
  {
  }

  /** Frame k left the backlog: read, or evicted. */
  predicate Left(m: Mic, k: nat) {
    k in m.delivered || exists i | 0 <= i < |m.dropped| :: m.dropped[i].frame == k
  }

  /** The backlog is the frames from `lo` on; each one before was read, or evicted from a full backlog. */
  predicate Latest(m: Mic, lo: nat) {
    && lo <= m.arrived && Frames(m.queue) == Range(lo, m.arrived)
    && |m.queue| <= m.arrived - lo + (if m.closed then 1 else 0)
    && (forall i | 0 <= i < |m.delivered| :: m.delivered[i] < lo)
    && (forall i, j | 0 <= i < j < |m.delivered| :: m.delivered[i] < m.delivered[j])
    && (forall k | 0 <= k < lo :: Left(m, k))
    && |m.delivered| + |m.dropped| == lo
    && (forall i | 0 <= i < |m.dropped| :: m.dropped[i].at - m.dropped[i].frame >= BACKLOG - 1)
  }

  ghost predicate MicOk(m: Mic) {
    && |m.queue| <= BACKLOG
    && (m.waiting && m.closed ==> m.queue != [])
    && exists lo: nat :: Latest(m, lo)
  }

  lemma HeadIsNext(m: Mic, lo: nat)
    requires lo <= m.arrived && Frames(m.queue) == Range(lo, m.arrived) && m.queue != []
    ensures m.queue[0].Some? ==> m.queue[0].value == lo < m.arrived && Frames(m.queue[1..]) == Range(lo + 1, m.arrived)
    ensures m.queue[0].None? ==> Frames(m.queue[1..]) == Frames(m.queue)
  {
    if m.queue[0].Some? {
      assert Frames(m.queue)[0] == m.queue[0].value;
      assert Frames(m.queue)[1..] == Frames(m.queue[1..]);
      assert Range(lo, m.arrived)[1..] == Range(lo + 1, m.arrived);
    }
  }

  lemma TakeKeepsLatest(m: Mic, lo: nat)
    requires Latest(m, lo) && m.queue != []
    ensures Latest(TakeHead(m), if m.queue[0].None? then lo else lo + 1)
  {
    hide Frames, Range;
    HeadIsNext(m, lo);
    var t := TakeHead(m);
    forall k | 0 <= k < lo ensures Left(t, k) {
      assert Left(m, k);
      if k in m.delivered { assert k in t.delivered; }
    }
    if m.queue[0].Some? { assert t.delivered[|m.delivered|] == lo; }
  }

  lemma EnqueueKeepsLatest(m: Mic, lo: nat)
    requires Latest(m, lo) && |m.queue| <= BACKLOG
    ensures exists lo': nat :: Latest(Enqueue(m), lo')
  {
    hide Frames, Range;
    var t, full := Enqueue(m), |m.queue| >= BACKLOG;
    var left := if full then m.queue[1..] else m.queue;
    var lo' := if full && m.queue[0].Some? then lo + 1 else lo;
    if full { HeadIsNext(m, lo); }
    FramesConcat(left, [Some(m.arrived)]);
    RangeGrows(lo', m.arrived);
    forall k | 0 <= k < lo' ensures Left(t, k) {
      if k < lo {
        assert Left(m, k);
        if k !in m.delivered {
          var i :| 0 <= i < |m.dropped| && m.dropped[i].frame == k;
          assert t.dropped[i].frame == k;
        }
      } else {
        assert t.dropped[|m.dropped|].frame == lo;
      }
    }
    assert Latest(t, lo');
  }

  lemma RangeGrows(lo: nat, hi: nat)
    requires lo <= hi
    ensures Range(lo, hi) + Frames([Some(hi)]) == Range(lo, hi + 1)
  {
  }

  lemma SameLeft(m: Mic, t: Mic, lo: nat)
    requires t.delivered == m.delivered && t.dropped == m.dropped && forall k | 0 <= k < lo :: Left(m, k)
    ensures forall k | 0 <= k < lo :: Left(t, k)
  {
    forall k | 0 <= k < lo ensures Left(t, k) {
      assert Left(m, k);
    }
  }

  lemma QuietKeepsLatest(m: Mic, e: MicStep, lo: nat)
    requires Latest(m, lo) && (e.Frame? ==> m.muted) && (e.ReadFrame? || e.Resume? ==> m.queue == [])
    ensures Latest(MicDo(m, e), lo)
  {
    hide Frames, Range, Left;
    FramesConcat(m.queue, [None]);
    var mark: seq<Option<nat>> := [None];
    FramesUnfold(mark);
    FramesUnfold(mark[1..]);
    assert Frames(m.queue) + [] == Frames(m.queue);
    SameLeft(m, MicDo(m, e), lo);
  }

  lemma MicDoKeeps(m: Mic, e: MicStep)
    requires MicOk(m)
    ensures MicOk(MicDo(m, e))
  {
    hide Latest, Enqueue;
    var lo: nat :| Latest(m, lo);
    if e.Frame? && !m.muted {
      EnqueueKeepsLatest(m, lo);
      EnqueueSize(m);
    } else if (e.ReadFrame? || e.Resume?) && m.queue != [] {
      TakeKeepsLatest(m, lo);
      assert Latest(MicDo(m, e), lo) || Latest(MicDo(m, e), lo + 1);
    } else {
      QuietKeepsLatest(m, e, lo);
    }
  }

  lemma EnqueueSize(m: Mic)
    requires |m.queue| <= BACKLOG
    ensures 0 < |Enqueue(m).queue| <= BACKLOG
  {
  }

  /**
   For every interleaving: the backlog holds exactly the latest frames; every earlier one was read, in order, or
   evicted, and only with a full backlog behind it; and a reader waiting at the close finds something to wake on.
   */
  lemma {:induction false} MicKeepsLatest(es: seq<MicStep>)
    ensures MicOk(MicExec(es))
  {
    hide MicOk, MicDo;
    if es != [] {
      MicKeepsLatest(es[..|es| - 1]);
      MicDoKeeps(MicExec(es[..|es| - 1]), es[|es| - 1]);
    } else {
      NothingHeard();
    }
  }

  lemma NothingHeard()
    ensures MicOk(LISTENING)
  {
    assert Latest(LISTENING, 0);
  }

  function MicOnward(m: Mic, es: seq<MicStep>): Mic
    decreases |es|
  {
    if es == [] then m else MicOnward(MicDo(m, es[0]), es[1..])
  }

  /** Muted, a frame leaves no trace; else it is the last of the backlog, and a full one counts one drop. */
  lemma FrameJoins(m: Mic)
    requires |m.queue| <= BACKLOG
    ensures var t := MicDo(m, Frame);
      if m.muted then t == m
      else
        && t.queue != [] && t.queue[|t.queue| - 1] == Some(m.arrived) && t.arrived == m.arrived + 1
        && t.queue[..|t.queue| - 1] == (if |m.queue| == 100 then m.queue[1..] else m.queue)
        && t.drops == m.drops + if |m.queue| == 100 then 1 else 0
  {
  }

  /** The microphone is muted exactly as it was last told. */
  lemma {:induction false} MuteHolds(es: seq<MicStep>, on: bool, more: seq<MicStep>)
    requires forall i | 0 <= i < |more| :: !more[i].Mute?
    ensures MicExec(es + [Mute(on)] + more).muted == on
    decreases |more|
  {
    var run := es + [Mute(on)] + more;
    if more == [] {
      assert run[..|run| - 1] == es && run[|run| - 1] == Mute(on);
    } else {
      var init := more[..|more| - 1];
      assert run[..|run| - 1] == es + [Mute(on)] + init && run[|run| - 1] == more[|more| - 1];
      MuteHolds(es, on, init);
    }
  }

  /** A reader gets what is in the backlog, first to last, one frame a read. */
  lemma {:induction false} ReadsInOrder(m: Mic, n: nat)
    requires !m.waiting && !m.ended && n <= |m.queue| && forall i | 0 <= i < n :: m.queue[i].Some?
    ensures var t := MicOnward(m, seq(n, _ => ReadFrame));
      t.delivered == m.delivered + Frames(m.queue[..n]) && t.queue == m.queue[n..] && !t.waiting && !t.ended
    decreases n
  {
    hide Frames;
    FramesUnfold(m.queue[..n]);
    if n > 0 {
      var rs := seq(n, _ => ReadFrame);
      assert rs[0] == ReadFrame && rs[1..] == seq(n - 1, _ => ReadFrame);
      ReadsInOrder(MicDo(m, ReadFrame), n - 1);
      assert m.queue[1..][..n - 1] == m.queue[..n][1..] && m.queue[1..][n - 1..] == m.queue[n..];
    }
  }

  /** A reader that finds nothing waits, and the next frame is its own; once the stream closed it ends instead. */
  lemma WaitingReaderIsServed(m: Mic)
    requires m.queue == [] && !m.waiting && !m.ended
    ensures m.closed ==> MicDo(m, ReadFrame).ended
    ensures !m.closed && !m.muted ==>
      var t := MicDo(MicDo(MicDo(m, ReadFrame), Frame), Resume);
      t.delivered == m.delivered + [m.arrived] && !t.waiting && !t.ended
    ensures !m.closed ==> MicDo(m, ReadFrame).waiting
    ensures !m.closed ==> var t := MicDo(MicDo(MicDo(m, ReadFrame), CloseMic), Resume); t.ended && !t.waiting
  {
  }

  /** A reader that waits or has ended takes nothing by asking again. */
  lemma OneReadAtATime(m: Mic)
    requires m.waiting || m.ended
    ensures MicDo(m, ReadFrame) == m
  {
  }

  // The code

  /** One session's socket. */
  class DuplexConnection {
    var queue: seq<Item>
    var inHand: Option<Item>
    var unfinished: nat
    var closed: bool
    var writing: bool
    var micQueue: seq<Option<nat>>
    var muted: bool
    var drops: nat
    var arrived: nat             // stands for the next frame's bytes
    var next: nat                // tells queued items apart
    ghost var lost: Option<Item>
    ghost var sent: seq<Item>
    ghost var accepted: seq<Item>
    ghost var cuts: seq<Cut>
    ghost var delivered: seq<nat>
    ghost var dropped: seq<Drop>

    ghost function View(): Out
      reads this
    {
      Out(queue, inHand, lost, sent, unfinished, closed, writing, next, accepted, cuts)
    }

    constructor ()
      ensures View() == OPENED && micQueue == [] && !muted && drops == 0 && arrived == 0
      ensures delivered == [] && dropped == []
    {
      queue, inHand, unfinished, closed, writing := [], None, 0, false, true;
      micQueue, muted, drops := [], false, 0;
      lost, sent, next, accepted, cuts, arrived, delivered, dropped := None, [], 0, [], [], 0, [], [];
    }

    /** put_nowait on the outbound queue. */
    method PutNowait(item: Item)
      modifies this`queue, this`unfinished, this`next, this`accepted
      ensures View() == Put(old(View()), item)
    {
      queue := queue + [item];
      unfinished := unfinished + 1;
      next := next + 1;
      if !item.Audio? {
        accepted := accepted + [item];
      }
    }

    method SendEventNow(payload: nat)
      modifies this`queue, this`unfinished, this`next, this`accepted
      ensures View() == Do(old(View()), SendEvent(payload))
    {
      if !closed {
        PutNowait(Event(payload, next));
      }
    }

    method SendAudioNow(pcm: nat)
      modifies this`queue, this`unfinished, this`next, this`accepted
      ensures View() == Do(old(View()), SendAudio(pcm))
    {
      if !closed {
        PutNowait(Audio(pcm, next));
      }
    }

    /** get_nowait() until the queue is empty, each item counted done. */
    method DrainQueue() returns (kept: seq<Item>)
      requires unfinished >= |queue|
      modifies this`queue, this`unfinished
      ensures queue == [] && kept == Events(old(queue)) && unfinished == old(unfinished) - |old(queue)|
    {
      kept := [];
      ghost var all := queue;
      while queue != []
        invariant |queue| <= |all| && queue == all[|all| - |queue|..]
        invariant kept == Events(all[..|all| - |queue|])
        invariant unfinished == old(unfinished) - |all| + |queue|
        decreases |queue|
      {
        var item := queue[0];
        assert all[..|all| - |queue| + 1][..|all| - |queue|] == all[..|all| - |queue|];
        queue := queue[1..];
        if !item.Audio? {
          kept := kept + [item];
        }
        unfinished := unfinished - 1;
      }
      assert all[..|all|] == all;
    }

    /** put_nowait() of items already numbered. */
    method PutBack(kept: seq<Item>)
      requires queue == []
      modifies this`queue, this`unfinished
      ensures queue == kept && unfinished == old(unfinished) + |kept|
    {
      for i := 0 to |kept|
        invariant queue == kept[..i] && unfinished == old(unfinished) + i
      {
        queue := queue + [kept[i]];
        unfinished := unfinished + 1;
      }
      assert kept[..|kept|] == kept;
    }

    /** Empties the queue, puts the events back in order and the flush frame after them. */
    method FlushPlayback()
      requires unfinished == |queue| + (if inHand.Some? then 1 else 0)
      modifies this`queue, this`unfinished, this`next, this`accepted, this`cuts
      ensures View() == Do(old(View()), Flush)
    {
      hide Events;
      if closed {
        return;
      }
      var kept := DrainQueue();
      PutBack(kept);
      cuts := cuts + [Cut(|sent| + |Hand(View())|, next)];
      PutNowait(FlushFrame(next));
    }

    /** The writer's get(). */
    method WriterTakes()
      requires writing && inHand.None? && queue != []
      modifies this`queue, this`inHand
      ensures View() == Do(old(View()), Take)
    {
      inHand := Some(queue[0]);
      queue := queue[1..];
    }

    /** One microphone frame off the socket. */
    method OnMicFrame()
      modifies this`micQueue, this`drops, this`arrived, this`dropped
      ensures forall waiting, ended :: MicView(waiting, ended) == MicDo(old(MicView(waiting, ended)), Frame)
    {
      if muted {
        return;
      }
      if |micQueue| >= BACKLOG {
        if micQueue[0].Some? { dropped := dropped + [Drop(micQueue[0].value, arrived)]; }
        micQueue := micQueue[1..];
        drops := drops + 1;
      }
      micQueue := micQueue + [Some(arrived)];
      arrived := arrived + 1;
    }

    /** What the microphone's readers see; `waiting` and `ended` are theirs. */
    ghost function MicView(waiting: bool, ended: bool): Mic
      reads this
    {
      Mic(micQueue, waiting, ended, closed, muted, arrived, delivered, drops, dropped)
    }

    /** Closes once: a blocked reader gets the end mark, a full backlog needs none. */
    method MarkClosed()
      modifies this`closed, this`micQueue
      ensures View() == Do(old(View()), Close)
      ensures forall waiting, ended :: MicView(waiting, ended) == MicDo(old(MicView(waiting, ended)), CloseMic)
    {
      if closed {
        return;
      }
      closed := true;
      if |micQueue| < BACKLOG {
        micQueue := micQueue + [None];
      }
    }

    /** The writer's send() came back, or raised: the item is counted done either way. */
    method WriterSent(ok: bool)
      requires inHand.Some? && unfinished > 0
      modifies this`inHand, this`unfinished, this`closed, this`writing, this`sent, this`lost, this`micQueue
      ensures View() == Do(old(View()), if ok then Sent else SendFails)
      ensures forall waiting, ended ::
        MicView(waiting, ended) ==
          if ok then old(MicView(waiting, ended)) else MicDo(old(MicView(waiting, ended)), CloseMic)
    {
      hide Put, Flushed, Enqueue, TakeHead;
      unfinished := unfinished - 1;
      if ok {
        sent := sent + [inHand.value];
      } else {
        lost := inHand;
        writing := false;
      }
      inHand := None;
      if !ok {
        MarkClosed();
      }
    }
  }
}
