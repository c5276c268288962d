/**
 Concurrent replacement of one file (POSIX): any number of starts each make one name hold their own bytes through a
 temp beside it and a rename, while others do the same, sweep old temps, fail, die, or tamper with the name. One
 event is one system call of one start.
 */
module FileReplace {

  type Bytes = seq<bv8>

  /** What one start writes. */
  datatype Job = Job(data: Bytes, mode: nat)

  const STALE_TEMP_S := 600.0
  const ATTEMPTS := 3

  /** Under a temp name, under the name itself (once, if no longer), or unlinked before it got there. */
  datatype Place = Temp | Placed | Removed

  /** An inode: who creates it (|jobs| for what was there before), its bytes and mode and its last write. */
  datatype Inode = Inode(owner: nat, bytes: Bytes, mode: nat, touched: real, place: Place)

  /** What the name is. */
  datatype Slot = Absent | Directory | Link | File(node: nat)

  datatype Outcome = Unchanged | Written | Raised | Dead

  /** Where a start is; k counts its attempts. */
  datatype Pc =
    | First
    | FirstRead(node: nat)
    | Sweep(next: nat, end: nat)
    | SweepDrop(next: nat, end: nat)
    | Look(k: nat)
    | Clear(k: nat)
    | Create(k: nat)
    | Writing(k: nat, node: nat, size: nat)
    | Check(k: nat, node: nat)
    | Open(k: nat)
    | Read(k: nat, node: nat)
    | Drop(k: nat)
    | Done(outcome: Outcome)

  datatype State = State(slot: Slot, nodes: seq<Inode>, clock: real, starts: seq<Pc>)

  datatype Event =
    | Own(start: nat, size: nat)
    | Fail(start: nat)
    | Die(start: nat)
    | Tick(now: real)
    | Outsider(what: Slot)

  /** Every reference is to an inode there is. */
  predicate Fits(jobs: seq<Job>, s: State) {
    && |s.starts| == |jobs|
    && (s.slot.File? ==> s.slot.node < |s.nodes|)
    && forall p | 0 <= p < |s.starts| :: PcFits(jobs[p], s.starts[p], |s.nodes|)
  }

  predicate PcFits(job: Job, pc: Pc, n: nat) {
    match pc
    case FirstRead(node) => node < n
    case Sweep(next, end) => next <= end <= n
    case SweepDrop(next, end) => next < end <= n
    case Writing(k, node, size) => node < n && size <= |job.data| && k < ATTEMPTS
    case Check(k, node) => node < n && k < ATTEMPTS
    case Read(k, node) => node < n && k < ATTEMPTS
    case Look(k) => k < ATTEMPTS
    case Clear(k) => k < ATTEMPTS
    case Create(k) => k < ATTEMPTS
    case Open(k) => k < ATTEMPTS
    case Drop(k) => k < ATTEMPTS
    case _ => true
  }

  function At(s: State, p: nat, pc: Pc): State
    requires p < |s.starts|
  {
    s.(starts := s.starts[p := pc])
  }

  /** A link count of one for an inode opened at the name: the name still is it. */
  predicate Holds(s: State, n: nat, job: Job)
    requires n < |s.nodes|
  {
    s.slot == File(n) && s.nodes[n].bytes == job.data && s.nodes[n].mode == job.mode
  }

  /** An entry of the sweep old enough to be a crashed start's. */
  predicate Stale(s: State, n: nat)
    requires n < |s.nodes|
  {
    s.nodes[n].place.Temp? && s.clock - s.nodes[n].touched >= STALE_TEMP_S
  }

  /** unlink of a temp name; no such name, no change. */
  function TempUnlinked(s: State, n: nat): State
    requires n < |s.nodes|
  {
    if s.nodes[n].place.Temp? then s.(nodes := s.nodes[n := s.nodes[n].(place := Removed)]) else s
  }

  function Appended(s: State, n: nat, more: Bytes): State
    requires n < |s.nodes|
  {
    s.(nodes := s.nodes[n := s.nodes[n].(bytes := s.nodes[n].bytes + more, touched := s.clock)])
  }

  /** One os.write: at least one byte, at most the rest. */
  function Amount(size: nat, left: nat): (r: nat)
    requires left > 0
    ensures 1 <= r <= left
  {
    if 1 <= size <= left then size else left
  }

  /** os.replace: a temp swept meanwhile or a directory at the name is an error, and the temp is unlinked. */
  function Renamed(s: State, p: nat, k: nat, n: nat): State
    requires p < |s.starts| && n < |s.nodes|
  {
    if !s.nodes[n].place.Temp? || s.slot.Directory? then At(TempUnlinked(s, n), p, Done(Raised))
    else At(s.(slot := File(n), nodes := s.nodes[n := s.nodes[n].(place := Placed)]), p, Check(k, n))
  }

  /** The start's next system call. */
  function Move(job: Job, s: State, p: nat, size: nat): State
    requires p < |s.starts| && (s.slot.File? ==> s.slot.node < |s.nodes|) && PcFits(job, s.starts[p], |s.nodes|)
  {
    match s.starts[p]
    case First => At(s, p, if s.slot.File? then FirstRead(s.slot.node) else Sweep(0, |s.nodes|))
    case FirstRead(n) => At(s, p, if Holds(s, n, job) then Done(Unchanged) else Sweep(0, |s.nodes|))
    case Sweep(i, end) =>
      At(s, p, if i == end then Look(0) else if Stale(s, i) then SweepDrop(i, end) else Sweep(i + 1, end))
    case SweepDrop(i, end) => At(TempUnlinked(s, i), p, Sweep(i + 1, end))
    case Look(k) => At(s, p, if s.slot.Directory? then Clear(k) else Create(k))
    case Clear(k) => if s.slot.Directory? then At(s.(slot := Absent), p, Create(k)) else At(s, p, Done(Raised))
    case Create(k) => At(s.(nodes := s.nodes + [Inode(p, [], job.mode, s.clock, Temp)]), p, Writing(k, |s.nodes|, 0))
    case Writing(k, n, w) =>
      if w == |job.data| then Renamed(s, p, k, n)
      else
        var more := Amount(size, |job.data| - w);
        At(Appended(s, n, job.data[w..w + more]), p, Writing(k, n, w + more))
    case Check(k, n) => At(s, p, if s.slot == File(n) then Done(Written) else Open(k))
    case Open(k) => At(s, p, if s.slot.File? then Read(k, s.slot.node) else Drop(k))
    case Read(k, n) => At(s, p, if Holds(s, n, job) then Done(Written) else Drop(k))
    case Drop(k) =>
      At(s.(slot := if s.slot.Directory? then Directory else Absent), p,
         if k + 1 < ATTEMPTS then Look(k + 1) else Done(Raised))
    case Done(_) => s
  }

  /**
   The start's next system call fails: no open is no match, an entry that cannot be judged is taken for stale, a
   failed unlink is passed over, and anything else raises, the temp unlinked if it still has its name.
   */
  function Failed(s: State, p: nat): State
    requires p < |s.starts| && (s.starts[p].Writing? ==> s.starts[p].node < |s.nodes|)
  {
    match s.starts[p]
    case First => At(s, p, Sweep(0, |s.nodes|))
    case Sweep(i, end) => At(s, p, if i < end then SweepDrop(i, end) else Look(0))
    case SweepDrop(i, end) => At(s, p, Sweep(i + 1, end))
    case Writing(_, n, _) => At(TempUnlinked(s, n), p, Done(Raised))
    case Open(k) => At(s, p, Drop(k))
    case Drop(k) => At(s, p, if k + 1 < ATTEMPTS then Look(k + 1) else Done(Raised))
    case Done(_) => s
    case _ => At(s, p, Done(Raised))
  }

  function Step(jobs: seq<Job>, s: State, e: Event): State
    requires Fits(jobs, s)
  {
    match e
    case Own(p, size) => if p < |s.starts| then Move(jobs[p], s, p, size) else s
    case Fail(p) => if p < |s.starts| then Failed(s, p) else s
    case Die(p) => if p < |s.starts| && !s.starts[p].Done? then At(s, p, Done(Dead)) else s
    case Tick(now) => s.(clock := now)
    case Outsider(what) => if what.File? then s else s.(slot := what)
  }

  /** The start an event belongs to, if it is one's. */
  predicate By(e: Event, p: nat) { (e.Own? || e.Fail? || e.Die?) && e.start == p }

  function After(jobs: seq<Job>, s: State, es: seq<Event>): (r: State)
    requires Fits(jobs, s)
    ensures Fits(jobs, r)
    decreases |es|
  {
    if es == [] then s
    else
      var before := After(jobs, s, es[..|es| - 1]);
      StepFits(jobs, before, es[|es| - 1]);
      Step(jobs, before, es[|es| - 1])
  }

  lemma MoveFits(job: Job, s: State, p: nat, size: nat)
    requires p < |s.starts| && (s.slot.File? ==> s.slot.node < |s.nodes|) && PcFits(job, s.starts[p], |s.nodes|)
    ensures var t := Move(job, s, p, size);
      && |t.starts| == |s.starts| && |t.nodes| >= |s.nodes| && (t.slot.File? ==> t.slot.node < |t.nodes|)
      && PcFits(job, t.starts[p], |t.nodes|)
      && forall q | 0 <= q < |s.starts| && q != p :: t.starts[q] == s.starts[q]
  {
  }

  lemma StepFits(jobs: seq<Job>, s: State, e: Event)
    requires Fits(jobs, s)
    ensures Fits(jobs, Step(jobs, s, e)) && |Step(jobs, s, e).nodes| >= |s.nodes|
  {
    if e.Own? && e.start < |jobs| {
      hide Move;
      MoveFits(jobs[e.start], s, e.start, e.size);
      forall q | 0 <= q < |s.starts| ensures PcFits(jobs[q], Step(jobs, s, e).starts[q], |Step(jobs, s, e).nodes|) {
        assert PcFits(jobs[q], s.starts[q], |s.nodes|);
      }
    }
  }

  // What every event keeps

  /** Whole content: some start's bytes and mode, or those of the file there before. */
  ghost predicate Whole(jobs: seq<Job>, s0: State, i: Inode) {
    || (exists j | 0 <= j < |jobs| :: Job(i.bytes, i.mode) == jobs[j])
    || (s0.slot.File? && s0.slot.node < |s0.nodes| && Job(i.bytes, i.mode) == Content(s0.nodes[s0.slot.node]))
  }

  function Content(i: Inode): Job { Job(i.bytes, i.mode) }

  ghost predicate InodeOk(jobs: seq<Job>, s0: State, i: Inode) { i.place.Placed? ==> Whole(jobs, s0, i) }

  /** The temp a start writes is its own and holds what it has written so far; after the rename, all of it. */
  predicate StartOk(job: Job, s: State, p: nat)
    requires p < |s.starts| && PcFits(job, s.starts[p], |s.nodes|)
  {
    match s.starts[p]
    case Writing(_, n, w) =>
      s.nodes[n].owner == p && Content(s.nodes[n]) == Job(job.data[..w], job.mode) && !s.nodes[n].place.Placed?
    case Check(_, n) => s.nodes[n].place.Placed? && Content(s.nodes[n]) == job
    case _ => true
  }

  ghost predicate Inv(jobs: seq<Job>, s0: State, s: State) {
    && Fits(jobs, s)
    && (s.slot.File? ==> s.nodes[s.slot.node].place.Placed?)
    && (forall n | 0 <= n < |s.nodes| :: InodeOk(jobs, s0, s.nodes[n]))
    && (forall p | 0 <= p < |s.starts| :: StartOk(jobs[p], s, p))
  }

  /** Every start about to begin, beside temps of earlier ones. */
  ghost predicate Initial(jobs: seq<Job>, s: State) {
    && Fits(jobs, s)
    && (forall p | 0 <= p < |s.starts| :: s.starts[p] == First)
    && (forall n | 0 <= n < |s.nodes| :: s.nodes[n].place.Placed? <==> s.slot == File(n))
  }

  /** One start's event leaves every inode but its own temp alone, except that a sweep may unlink a temp. */
  predicate Untouched(p: nat, a: Inode, b: Inode) {
    && b.owner == a.owner
    && (a.place.Placed? ==> b == a)
    && (a.owner != p ==> b == a || (a.place.Temp? && b == a.(place := Removed)))
  }

  lemma MoveLeavesInodes(job: Job, s: State, p: nat, size: nat, n: nat)
    requires p < |s.starts| && (s.slot.File? ==> s.slot.node < |s.nodes|) && PcFits(job, s.starts[p], |s.nodes|)
    requires StartOk(job, s, p) && n < |s.nodes|
    ensures n < |Move(job, s, p, size).nodes| && Untouched(p, s.nodes[n], Move(job, s, p, size).nodes[n])
    ensures n < |Failed(s, p).nodes| && Untouched(p, s.nodes[n], Failed(s, p).nodes[n])
  {
  }

  lemma MoveKeepsOwn(job: Job, s: State, p: nat, size: nat)
    requires p < |s.starts| && (s.slot.File? ==> s.slot.node < |s.nodes|) && PcFits(job, s.starts[p], |s.nodes|)
    requires StartOk(job, s, p)
    ensures PcFits(job, Move(job, s, p, size).starts[p], |Move(job, s, p, size).nodes|)
    ensures StartOk(job, Move(job, s, p, size), p)
  {
    if s.starts[p].Writing? && s.starts[p].size < |job.data| {
      var w := s.starts[p].size;
      var more := Amount(size, |job.data| - w);
      assert job.data[..w] + job.data[w..w + more] == job.data[..w + more];
    }
    if s.starts[p].Writing? && s.starts[p].size == |job.data| {
      assert job.data[..|job.data|] == job.data;
    }
  }

  /** A new file at the name, or a newly placed inode, is the moving start's own whole content. */
  lemma MovePlaces(job: Job, s: State, p: nat, size: nat)
    requires p < |s.starts| && (s.slot.File? ==> s.slot.node < |s.nodes|) && PcFits(job, s.starts[p], |s.nodes|)
    requires StartOk(job, s, p) && (s.slot.File? ==> s.nodes[s.slot.node].place.Placed?)
    ensures var t := Move(job, s, p, size);
      && (t.slot.File? ==> t.slot.node < |t.nodes| && t.nodes[t.slot.node].place.Placed?)
      && forall n | 0 <= n < |t.nodes| && t.nodes[n].place.Placed? ::
           (n < |s.nodes| && s.nodes[n].place.Placed? && t.nodes[n] == s.nodes[n]) || Content(t.nodes[n]) == job
  {
    if s.starts[p].Writing? { assert job.data[..|job.data|] == job.data; }
  }

  predicate WellAt(jobs: seq<Job>, s: State, p: nat) {
    && p < |s.starts| && p < |jobs|
    && (s.slot.File? ==> s.slot.node < |s.nodes|)
    && PcFits(jobs[p], s.starts[p], |s.nodes|) && StartOk(jobs[p], s, p)
  }

  /** What one start's event, its call done or failed, does to the whole. */
  ghost predicate Local(job: Job, s: State, t: State, p: nat)
    requires p < |s.starts|
  {
    && |t.starts| == |s.starts| && |t.nodes| >= |s.nodes|
    && (forall q | 0 <= q < |s.starts| && q != p :: t.starts[q] == s.starts[q])
    && (forall n | 0 <= n < |s.nodes| :: Untouched(p, s.nodes[n], t.nodes[n]))
    && (forall n | |s.nodes| <= n < |t.nodes| :: !t.nodes[n].place.Placed?)
    && (t.slot.File? ==> t.slot.node < |t.nodes| && t.nodes[t.slot.node].place.Placed?)
    && (forall n | 0 <= n < |t.nodes| && t.nodes[n].place.Placed? ::
          (n < |s.nodes| && t.nodes[n] == s.nodes[n]) || Content(t.nodes[n]) == job)
    && PcFits(job, t.starts[p], |t.nodes|) && StartOk(job, t, p)
  }

  lemma MoveIsLocal(jobs: seq<Job>, s: State, p: nat, size: nat)
    requires WellAt(jobs, s, p) && (s.slot.File? ==> s.nodes[s.slot.node].place.Placed?)
    ensures Local(jobs[p], s, Move(jobs[p], s, p, size), p)
  {
    var job := jobs[p];
    hide Move, StartOk, Untouched;
    MoveFits(job, s, p, size);
    MoveKeepsOwn(job, s, p, size);
    MovePlaces(job, s, p, size);
    forall n | 0 <= n < |s.nodes| ensures Untouched(p, s.nodes[n], Move(job, s, p, size).nodes[n]) {
      MoveLeavesInodes(job, s, p, size, n);
    }
  }

  lemma FailureIsLocal(jobs: seq<Job>, s: State, p: nat)
    requires WellAt(jobs, s, p) && (s.slot.File? ==> s.nodes[s.slot.node].place.Placed?)
    ensures Local(jobs[p], s, Failed(s, p), p)
  {
  }

  lemma LocalKeeps(jobs: seq<Job>, s0: State, s: State, t: State, p: nat)
    requires Inv(jobs, s0, s) && p < |jobs| && Local(jobs[p], s, t, p)
    ensures Inv(jobs, s0, t)
  {
    forall q | 0 <= q < |t.starts| ensures PcFits(jobs[q], t.starts[q], |t.nodes|) && StartOk(jobs[q], t, q) {
      assert PcFits(jobs[q], s.starts[q], |s.nodes|) && StartOk(jobs[q], s, q);
      if q != p { OthersUnmoved(jobs[q], jobs[p], s, t, p, q); }
    }
    hide StartOk, PcFits, Untouched, Whole;
    forall n | 0 <= n < |t.nodes| ensures InodeOk(jobs, s0, t.nodes[n]) {
      if n < |s.nodes| { assert InodeOk(jobs, s0, s.nodes[n]); }
    }
  }

  lemma OthersUnmoved(mine: Job, job: Job, s: State, t: State, p: nat, q: nat)
    requires p < |s.starts| && q < |s.starts| && p != q && Local(job, s, t, p)
    requires PcFits(mine, s.starts[q], |s.nodes|) && StartOk(mine, s, q)
    ensures PcFits(mine, t.starts[q], |t.nodes|) && StartOk(mine, t, q)
  {
    assert t.starts[q] == s.starts[q];
    match s.starts[q]
    case Writing(_, n, _) =>
      assert Untouched(p, s.nodes[n], t.nodes[n]);
    case Check(_, n) =>
      assert Untouched(p, s.nodes[n], t.nodes[n]);
    case _ =>
  }

  lemma StepKeeps(jobs: seq<Job>, s0: State, s: State, e: Event)
    requires Inv(jobs, s0, s)
    ensures Inv(jobs, s0, Step(jobs, s, e))
  {
    hide Local, Move, Failed;
    match e
    case Own(p, size) =>
      if p < |jobs| {
        WellThere(jobs, s0, s, p);
        MoveIsLocal(jobs, s, p, size);
        LocalKeeps(jobs, s0, s, Move(jobs[p], s, p, size), p);
      }
    case Fail(p) =>
      if p < |jobs| {
        WellThere(jobs, s0, s, p);
        FailureIsLocal(jobs, s, p);
        LocalKeeps(jobs, s0, s, Failed(s, p), p);
      }
    case _ => OtherEventsKeep(jobs, s0, s, e);
  }

  lemma WellThere(jobs: seq<Job>, s0: State, s: State, p: nat)
    requires Inv(jobs, s0, s) && p < |jobs|
    ensures WellAt(jobs, s, p)
  {
  }

  lemma OtherEventsKeep(jobs: seq<Job>, s0: State, s: State, e: Event)
    requires Inv(jobs, s0, s) && !e.Own? && !e.Fail?
    ensures Inv(jobs, s0, Step(jobs, s, e))
  {
    var t := Step(jobs, s, e);
    StepFits(jobs, s, e);
    hide InodeOk;
    forall p | 0 <= p < |t.starts| ensures StartOk(jobs[p], t, p) {
      assert StartOk(jobs[p], s, p);
    }
  }

  lemma {:induction false} RunKeeps(jobs: seq<Job>, s0: State, es: seq<Event>)
    requires Initial(jobs, s0)
    ensures Inv(jobs, s0, After(jobs, s0, es))
    decreases |es|
  {
    hide Inv;
    if es == [] {
      InitialInv(jobs, s0);
    } else {
      RunKeeps(jobs, s0, es[..|es| - 1]);
      StepKeeps(jobs, s0, After(jobs, s0, es[..|es| - 1]), es[|es| - 1]);
    }
  }

  lemma InitialInv(jobs: seq<Job>, s0: State)
    requires Initial(jobs, s0)
    ensures Inv(jobs, s0, s0)
  {
  }

  /** A reader at any moment of any run finds no file, or the whole content of one start or of the file before. */
  lemma ReaderFindsWhole(jobs: seq<Job>, s0: State, es: seq<Event>)
    requires Initial(jobs, s0)
    ensures var s := After(jobs, s0, es); s.slot.File? ==> Whole(jobs, s0, s.nodes[s.slot.node])
  {
    hide After, Whole;
    RunKeeps(jobs, s0, es);
    var s := After(jobs, s0, es);
    if s.slot.File? {
      assert InodeOk(jobs, s0, s.nodes[s.slot.node]);
    }
  }

  /** A file once at the name is never written again: who has it open reads on what it was. */
  lemma PlacedForGood(jobs: seq<Job>, s0: State, es: seq<Event>, e: Event, n: nat)
    requires Initial(jobs, s0)
    requires n < |After(jobs, s0, es).nodes| && After(jobs, s0, es).nodes[n].place.Placed?
    ensures n < |After(jobs, s0, es + [e]).nodes| && After(jobs, s0, es + [e]).nodes[n] == After(jobs, s0, es).nodes[n]
  {
    AfterOne(jobs, s0, es, e);
    RunKeeps(jobs, s0, es);
    var s := After(jobs, s0, es);
    hide After, Move, Failed;
    if (e.Own? || e.Fail?) && e.start < |jobs| {
      WellThere(jobs, s0, s, e.start);
      MoveLeavesInodes(jobs[e.start], s, e.start, if e.Own? then e.size else 0, n);
    }
  }

  lemma AfterOne(jobs: seq<Job>, s0: State, es: seq<Event>, e: Event)
    requires Fits(jobs, s0)
    ensures After(jobs, s0, es + [e]) == Step(jobs, After(jobs, s0, es), e)
  {
    hide Step, Fits;
    assert (es + [e])[..|es + [e]| - 1] == es;
  }

  /** The name is a file of exactly the job's bytes and mode. */
  predicate NameHolds(s: State, job: Job)
    requires s.slot.File? ==> s.slot.node < |s.nodes|
  {
    s.slot.File? && Content(s.nodes[s.slot.node]) == job
  }

  predicate Reported(pc: Pc) { pc == Done(Written) || pc == Done(Unchanged) }

  lemma ReportSees(job: Job, s: State, e: Event, p: nat, size: nat)
    requires p < |s.starts| && (s.slot.File? ==> s.slot.node < |s.nodes|) && PcFits(job, s.starts[p], |s.nodes|)
    requires StartOk(job, s, p) && !Reported(s.starts[p])
    ensures Reported(Move(job, s, p, size).starts[p]) ==> NameHolds(s, job)
    ensures !Reported(Failed(s, p).starts[p])
  {
  }

  /** A start that has returned, whether it wrote or found nothing to do, saw its own bytes at the name. */
  lemma {:induction false} ReturnMeansHeld(jobs: seq<Job>, s0: State, es: seq<Event>, p: nat) returns (i: nat)
    requires Initial(jobs, s0) && p < |jobs| && Reported(After(jobs, s0, es).starts[p])
    ensures i < |es| && NameHolds(After(jobs, s0, es[..i]), jobs[p]) && By(es[i], p)
    ensures !Reported(After(jobs, s0, es[..i]).starts[p]) && Reported(After(jobs, s0, es[..i + 1]).starts[p])
    decreases |es|
  {
    hide Inv, Step, NameHolds;
    if es == [] { assert false; }
    var init, e := es[..|es| - 1], es[|es| - 1];
    var s := After(jobs, s0, init);
    if Reported(s.starts[p]) {
      i := ReturnMeansHeld(jobs, s0, init, p);
      assert init[..i] == es[..i] && init[..i + 1] == es[..i + 1];
    } else {
      i := |es| - 1;
      assert es[..i] == init && es[..i + 1] == es;
      RunKeeps(jobs, s0, init);
      WellThere(jobs, s0, s, p);
      ReturnSees(jobs, s, e, p);
    }
  }

  lemma ReturnSees(jobs: seq<Job>, s: State, e: Event, p: nat)
    requires Fits(jobs, s) && WellAt(jobs, s, p) && !Reported(s.starts[p]) && Reported(Step(jobs, s, e).starts[p])
    ensures By(e, p) && NameHolds(s, jobs[p])
  {
    hide Move, Failed, StartOk;
    ReportSees(jobs[p], s, e, p, if e.Own? then e.size else 0);
    if !By(e, p) { OnlyOwnMoves(jobs, s, e, p); }
  }

  lemma OnlyOwnMoves(jobs: seq<Job>, s: State, e: Event, p: nat)
    requires Fits(jobs, s) && p < |s.starts| && !By(e, p)
    ensures Step(jobs, s, e).starts[p] == s.starts[p]
  {
    if e.Own? && e.start < |jobs| {
      hide Move;
      MoveFits(jobs[e.start], s, e.start, e.size);
    }
  }

  // Only stale temps are swept

  /** At event i start p looks at entry n of its sweep and finds it stale, or cannot tell. */
  predicate JudgedAt(jobs: seq<Job>, s0: State, es: seq<Event>, i: nat, p: nat, n: nat)
    requires Fits(jobs, s0) && p < |jobs|
  {
    && i < |es| && By(es[i], p)
    && var s := After(jobs, s0, es[..i]);
      && s.starts[p].Sweep? && s.starts[p].next == n < s.starts[p].end
      && (es[i].Own? ==> n < |s.nodes| && Stale(s, n))
  }

  lemma {:induction false} DropWasJudged(jobs: seq<Job>, s0: State, es: seq<Event>, p: nat) returns (i: nat)
    requires Fits(jobs, s0) && p < |jobs| && !s0.starts[p].SweepDrop? && After(jobs, s0, es).starts[p].SweepDrop?
    ensures JudgedAt(jobs, s0, es, i, p, After(jobs, s0, es).starts[p].next)
    decreases |es|
  {
    hide Move, Failed;
    if es == [] { assert false; }
    var init, e := es[..|es| - 1], es[|es| - 1];
    var s := After(jobs, s0, init);
    if By(e, p) {
      i := |es| - 1;
      SweepEnters(jobs[p], s, p, if e.Own? then e.size else 0);
    } else {
      OnlyOwnMoves(jobs, s, e, p);
      i := DropWasJudged(jobs, s0, init, p);
      assert init[..i] == es[..i];
    }
  }

  lemma SweepEnters(job: Job, s: State, p: nat, size: nat)
    requires p < |s.starts| && (s.slot.File? ==> s.slot.node < |s.nodes|) && PcFits(job, s.starts[p], |s.nodes|)
    ensures var pc := Move(job, s, p, size).starts[p];
      pc.SweepDrop? ==>
        s.starts[p] == Sweep(pc.next, pc.end) && pc.next < pc.end && pc.next < |s.nodes| && Stale(s, pc.next)
    ensures var pc := Failed(s, p).starts[p];
      pc.SweepDrop? ==> s.starts[p] == Sweep(pc.next, pc.end) && pc.next < pc.end
  {
  }

  lemma MoveRemoves(job: Job, s: State, p: nat, size: nat, n: nat)
    requires p < |s.starts| && (s.slot.File? ==> s.slot.node < |s.nodes|) && PcFits(job, s.starts[p], |s.nodes|)
    requires StartOk(job, s, p) && n < |s.nodes| && s.nodes[n].place.Temp? && s.nodes[n].owner != p
    requires n < |Move(job, s, p, size).nodes| && n < |Failed(s, p).nodes|
    ensures Move(job, s, p, size).nodes[n].place.Removed? ==> s.starts[p].SweepDrop? && s.starts[p].next == n
    ensures !Failed(s, p).nodes[n].place.Removed?
  {
  }

  /** A temp unlinked by anyone but the start that made it was found stale, or could not be judged, by that sweep. */
  lemma SweptWasStale(jobs: seq<Job>, s0: State, es: seq<Event>, e: Event, n: nat) returns (i: nat)
    requires Initial(jobs, s0) && n < |After(jobs, s0, es).nodes| && n < |After(jobs, s0, es + [e]).nodes|
    requires After(jobs, s0, es).nodes[n].place.Temp? && After(jobs, s0, es + [e]).nodes[n].place.Removed?
    requires !By(e, After(jobs, s0, es).nodes[n].owner)
    ensures e.Own? && e.start < |jobs| && JudgedAt(jobs, s0, es, i, e.start, n)
  {
    hide Inv, Move, Failed, StartOk;
    var s := After(jobs, s0, es);
    AfterOne(jobs, s0, es, e);
    RunKeeps(jobs, s0, es);
    i := 0;
    if (e.Own? || e.Fail?) && e.start < |jobs| {
      WellThere(jobs, s0, s, e.start);
      MoveLeavesInodes(jobs[e.start], s, e.start, if e.Own? then e.size else 0, n);
      MoveRemoves(jobs[e.start], s, e.start, if e.Own? then e.size else 0, n);
      i := DropWasJudged(jobs, s0, es, e.start);
    }
  }

  // The retry loop ends

  /** A bound on the system calls a start has left once its sweep is over. */
  function Left(job: Job, pc: Pc): nat {
    match pc
    case Look(k) => Attempts(job, k)
    case Clear(k) => Attempts(job, k) - 1
    case Create(k) => Attempts(job, k) - 2
    case Writing(k, _, w) => if w <= |job.data| then Attempts(job, k) - 3 - w else 0
    case Check(k, _) => Attempts(job, k) - |job.data| - 4
    case Open(k) => Attempts(job, k) - |job.data| - 5
    case Read(k, _) => Attempts(job, k) - |job.data| - 6
    case Drop(k) => Attempts(job, k) - |job.data| - 7
    case _ => 0
  }

  function Attempts(job: Job, k: nat): (r: nat)
    ensures r >= |job.data| + 8
  {
    if k < ATTEMPTS then (ATTEMPTS - k) * (|job.data| + 8) else |job.data| + 8
  }

  predicate PastSweep(pc: Pc) {
    !pc.First? && !pc.FirstRead? && !pc.Sweep? && !pc.SweepDrop?
  }

  /** How many of the run's events moved start p. */
  function Moves(jobs: seq<Job>, s: State, es: seq<Event>, p: nat): nat
    requires Fits(jobs, s) && p < |jobs|
    decreases |es|
  {
    if es == [] then 0
    else
      var before := After(jobs, s, es[..|es| - 1]);
      assert After(jobs, s, es) == Step(jobs, before, es[|es| - 1]);
      Moves(jobs, s, es[..|es| - 1], p) + if After(jobs, s, es).starts[p] != before.starts[p] then 1 else 0
  }

  lemma AttemptsStep(job: Job, k: nat)
    requires k < ATTEMPTS
    ensures k + 1 < ATTEMPTS ==> Attempts(job, k) == Attempts(job, k + 1) + |job.data| + 8
  {
  }

  lemma MoveCounts(job: Job, s: State, p: nat, size: nat)
    requires p < |s.starts| && (s.slot.File? ==> s.slot.node < |s.nodes|) && PcFits(job, s.starts[p], |s.nodes|)
    requires PastSweep(s.starts[p])
    ensures var pc := Move(job, s, p, size).starts[p];
      PastSweep(pc) && (if s.starts[p].Done? then pc == s.starts[p] else Left(job, pc) < Left(job, s.starts[p]))
    ensures var pc := Failed(s, p).starts[p];
      PastSweep(pc) && (if s.starts[p].Done? then pc == s.starts[p] else Left(job, pc) < Left(job, s.starts[p]))
  {
    hide Attempts;
    match s.starts[p]
    case Drop(k) => AttemptsStep(job, k);
    case _ =>
  }

  /** Past its sweep a start makes at most as many calls as three attempts take, whatever the others do meanwhile. */
  lemma {:induction false} LoopEnds(jobs: seq<Job>, s: State, es: seq<Event>, p: nat)
    requires Fits(jobs, s) && p < |jobs| && PastSweep(s.starts[p])
    ensures var t := After(jobs, s, es);
      && PastSweep(t.starts[p])
      && Moves(jobs, s, es, p) + Left(jobs[p], t.starts[p]) <= Left(jobs[p], s.starts[p]) <= 3 * (|jobs[p].data| + 8)
    ensures Moves(jobs, s, es, p) == Left(jobs[p], s.starts[p]) ==> After(jobs, s, es).starts[p].Done?
    decreases |es|
  {
    hide Move, Failed, Left;
    LeftBound(jobs[p], s.starts[p], |s.nodes|);
    if es != [] {
      var init, e := es[..|es| - 1], es[|es| - 1];
      var before := After(jobs, s, init);
      LoopEnds(jobs, s, init, p);
      LeftBound(jobs[p], before.starts[p], |before.nodes|);
      LeftBound(jobs[p], After(jobs, s, es).starts[p], |After(jobs, s, es).nodes|);
      if By(e, p) {
        MoveCounts(jobs[p], before, p, if e.Own? then e.size else 0);
      } else {
        OnlyOwnMoves(jobs, before, e, p);
      }
    }
  }

  lemma LeftBound(job: Job, pc: Pc, n: nat)
    requires PcFits(job, pc, n)
    ensures Left(job, pc) <= 3 * (|job.data| + 8)
    ensures PastSweep(pc) ==> (Left(job, pc) == 0 <==> pc.Done?)
  {
  }

  /** The calls a start has left at most, the directory having n entries when its sweep begins. */
  function Ahead(job: Job, pc: Pc, n: nat): nat {
    var loop := 3 * (|job.data| + 8);
    match pc
    case First => 2 * n + loop + 3
    case FirstRead(_) => 2 * n + loop + 2
    case Sweep(i, end) => if i <= end then 2 * (end - i) + loop + 1 else 0
    case SweepDrop(i, end) => if i < end then 2 * (end - i) + loop else 0
    case _ => Left(job, pc)
  }

  /** Whatever the others do, each call of a start, done or failed, brings it nearer to its end. */
  lemma CallProgresses(job: Job, s: State, p: nat, size: nat)
    requires p < |s.starts| && (s.slot.File? ==> s.slot.node < |s.nodes|) && PcFits(job, s.starts[p], |s.nodes|)
    requires !s.starts[p].Done?
    ensures Ahead(job, Move(job, s, p, size).starts[p], |s.nodes|) < Ahead(job, s.starts[p], |s.nodes|)
    ensures Ahead(job, Failed(s, p).starts[p], |s.nodes|) < Ahead(job, s.starts[p], |s.nodes|)
  {
    if PastSweep(s.starts[p]) {
      MoveCounts(job, s, p, size);
      hide Move, Failed, Left;
    } else {
      LeftBound(job, Move(job, s, p, size).starts[p], |s.nodes|);
      LeftBound(job, Failed(s, p).starts[p], |s.nodes|);
      hide Left;
    }
  }

  // When the name is never lost

  /** No call fails and nobody else touches the name. */
  predicate Calm(es: seq<Event>) {
    forall i | 0 <= i < |es| :: !es[i].Fail? && !es[i].Outsider?
  }

  /** A reader found a file, and after one more event finds none. */
  ghost predicate Loses(jobs: seq<Job>, s0: State, es: seq<Event>, e: Event) {
    && Initial(jobs, s0) && Calm(es + [e])
    && After(jobs, s0, es).slot.File? && !After(jobs, s0, es + [e]).slot.File?
  }

  /** At most two starts, and both with the same to write. */
  predicate AtMostATwin(jobs: seq<Job>) {
    |jobs| <= 2 && forall p, q | 0 <= p < q < |jobs| :: jobs[p] == jobs[q]
  }

  predicate Settled(s: State, q: nat) {
    q < |s.starts| && (s.starts[q].Done? || (s.starts[q].Check? && s.slot == File(s.starts[q].node)))
  }

  predicate TwinOk(job: Job, s: State, p: nat, q: nat)
    requires p < |s.starts| && (s.slot.File? ==> s.slot.node < |s.nodes|)
  {
    match s.starts[p]
    case Check(_, n) => NameHolds(s, job) && (s.slot == File(n) || Settled(s, q))
    case Open(_) => NameHolds(s, job) && Settled(s, q)
    case Read(_, n) => NameHolds(s, job) && Settled(s, q) && s.slot == File(n)
    case Drop(_) => false
    case _ => true
  }

  function Other(p: nat): nat { if p == 0 then 1 else 0 }

  ghost predicate Twins(jobs: seq<Job>, s: State)
    requires Fits(jobs, s)
  {
    forall p | 0 <= p < |jobs| :: TwinOk(jobs[p], s, p, Other(p))
  }

  lemma TwinMove(job: Job, s: State, p: nat, q: nat, size: nat)
    requires p < |s.starts| && p != q
    requires s.slot.File? ==> s.slot.node < |s.nodes| && s.nodes[s.slot.node].place.Placed?
    requires PcFits(job, s.starts[p], |s.nodes|) && StartOk(job, s, p) && TwinOk(job, s, p, q)
    requires q < |s.starts| ==> PcFits(job, s.starts[q], |s.nodes|) && StartOk(job, s, q) && TwinOk(job, s, q, p)
    ensures var t := Move(job, s, p, size);
      && |t.starts| == |s.starts|
      && (t.slot.File? ==> t.slot.node < |t.nodes|)
      && (s.slot.File? ==> t.slot.File?)
      && TwinOk(job, t, p, q)
      && (q < |s.starts| ==> TwinOk(job, t, q, p))
  {
    if s.starts[p].Writing? { assert job.data[..|job.data|] == job.data; }
  }

  lemma TwinStep(jobs: seq<Job>, s0: State, s: State, e: Event)
    requires Inv(jobs, s0, s) && AtMostATwin(jobs) && Twins(jobs, s) && !e.Fail? && !e.Outsider?
    ensures Fits(jobs, Step(jobs, s, e)) && Twins(jobs, Step(jobs, s, e))
    ensures s.slot.File? ==> Step(jobs, s, e).slot.File?
  {
    StepFits(jobs, s, e);
    if e.Own? && e.start < |jobs| {
      TwinMoveStep(jobs, s0, s, e.start, e.size);
    } else {
      assert forall p | 0 <= p < |jobs| :: TwinOk(jobs[p], s, p, Other(p));
    }
  }

  lemma TwinMoveStep(jobs: seq<Job>, s0: State, s: State, p: nat, size: nat)
    requires Inv(jobs, s0, s) && AtMostATwin(jobs) && Twins(jobs, s) && p < |jobs|
    ensures var t := Move(jobs[p], s, p, size);
      Fits(jobs, t) && Twins(jobs, t) && (s.slot.File? ==> t.slot.File?)
  {
    var q := Other(p);
    TwinThere(jobs, s0, s, p);
    StepFits(jobs, s, Own(p, size));
    hide Move, StartOk, TwinOk, NameHolds, Inv, PcFits;
    assert q < |jobs| ==> jobs[q] == jobs[p] && Other(q) == p;
    TwinMove(jobs[p], s, p, q, size);
    var t := Move(jobs[p], s, p, size);
    forall r | 0 <= r < |jobs| ensures TwinOk(jobs[r], t, r, Other(r)) {
      if r != p { assert r == q; }
    }
  }

  lemma TwinThere(jobs: seq<Job>, s0: State, s: State, p: nat)
    requires Inv(jobs, s0, s) && AtMostATwin(jobs) && Twins(jobs, s) && p < |jobs|
    ensures s.slot.File? ==> s.slot.node < |s.nodes| && s.nodes[s.slot.node].place.Placed?
    ensures PcFits(jobs[p], s.starts[p], |s.nodes|) && StartOk(jobs[p], s, p) && TwinOk(jobs[p], s, p, Other(p))
    ensures var q := Other(p);
      q < |jobs| ==> PcFits(jobs[p], s.starts[q], |s.nodes|) && StartOk(jobs[p], s, q) && TwinOk(jobs[p], s, q, p)
  {
    hide InodeOk, PcFits, StartOk, TwinOk;
    var q := Other(p);
    if q < |jobs| {
      assert jobs[p] == jobs[q] by { assert if p < q then jobs[p] == jobs[q] else jobs[q] == jobs[p]; }
      assert Other(q) == p;
      assert TwinOk(jobs[q], s, q, Other(q)) && StartOk(jobs[q], s, q) && PcFits(jobs[q], s.starts[q], |s.nodes|);
    }
  }

  lemma {:induction false} TwinRun(jobs: seq<Job>, s0: State, es: seq<Event>)
    requires Initial(jobs, s0) && AtMostATwin(jobs) && Calm(es)
    ensures Twins(jobs, After(jobs, s0, es))
    decreases |es|
  {
    hide Twins, Inv;
    if es == [] {
      TwinsAtFirst(jobs, s0);
    } else {
      var init := es[..|es| - 1];
      TwinRun(jobs, s0, init);
      RunKeeps(jobs, s0, init);
      TwinStep(jobs, s0, After(jobs, s0, init), es[|es| - 1]);
    }
  }

  lemma TwinsAtFirst(jobs: seq<Job>, s0: State)
    requires Initial(jobs, s0)
    ensures Twins(jobs, s0)
  {
  }

  lemma {:induction false} RunConcat(jobs: seq<Job>, s: State, a: seq<Event>, b: seq<Event>)
    requires Fits(jobs, s)
    ensures After(jobs, s, a + b) == After(jobs, After(jobs, s, a), b)
    decreases |b|
  {
    hide Step, Fits;
    if b == [] {
      assert a + b == a;
    } else {
      assert (a + b)[..|a + b| - 1] == a + b[..|b| - 1];
      RunConcat(jobs, s, a, b[..|b| - 1]);
    }
  }

  predicate NoneStale(s: State) {
    forall n | 0 <= n < |s.nodes| :: !Stale(s, n)
  }

  lemma NoneStaleAt(s: State, p: nat, pc: Pc)
    requires NoneStale(s) && p < |s.starts|
    ensures NoneStale(At(s, p, pc))
  {
    assert forall n | 0 <= n < |s.nodes| :: Stale(At(s, p, pc), n) == Stale(s, n);
  }

  /** Sweeping entries none of which is stale. */
  lemma {:induction false} SweepRun(jobs: seq<Job>, s: State, p: nat) returns (es: seq<Event>)
    requires Fits(jobs, s) && p < |jobs| && s.starts[p].Sweep? && NoneStale(s)
    ensures Calm(es) && After(jobs, s, es) == At(s, p, Look(0))
    decreases if s.starts[p].Sweep? then s.starts[p].end - s.starts[p].next else 0
  {
    var i, end := s.starts[p].next, s.starts[p].end;
    AfterOne(jobs, s, [], Own(p, 0));
    es := [Own(p, 0)];
    assert [] + es == es;
    if i < end {
      var t := At(s, p, Sweep(i + 1, end));
      assert After(jobs, s, es) == t;
      NoneStaleAt(s, p, Sweep(i + 1, end));
      var rest := SweepRun(jobs, t, p);
      RunConcat(jobs, s, es, rest);
      assert At(t, p, Look(0)) == At(s, p, Look(0));
      es := es + rest;
    }
  }

  function Full(job: Job, p: nat, now: real): Inode { Inode(p, job.data, job.mode, now, Temp) }

  lemma OneOwn(jobs: seq<Job>, s: State, p: nat, size: nat)
    requires Fits(jobs, s) && p < |jobs|
    ensures After(jobs, s, [Own(p, size)]) == Move(jobs[p], s, p, size)
  {
    hide Move;
    AfterOne(jobs, s, [], Own(p, size));
    assert [] + [Own(p, size)] == [Own(p, size)];
  }

  /** A start alone up to its rename, the name absent. */
  lemma Prepare(jobs: seq<Job>, s: State, p: nat) returns (es: seq<Event>)
    requires Fits(jobs, s) && p < |jobs| && s.slot == Absent && s.starts[p] == First && NoneStale(s)
    ensures Calm(es)
    ensures After(jobs, s, es) ==
      State(Absent, s.nodes + [Full(jobs[p], p, s.clock)], s.clock,
            s.starts[p := Writing(0, |s.nodes|, |jobs[p].data|)])
  {
    hide After, Move, Step, PcFits, NoneStale;
    var scan := Scan(jobs, s, p);
    var fill := Fill(jobs, At(s, p, Look(0)), p);
    RunConcat(jobs, s, scan, fill);
    es := scan + fill;
  }

  lemma Scan(jobs: seq<Job>, s: State, p: nat) returns (es: seq<Event>)
    requires Fits(jobs, s) && p < |jobs| && s.slot == Absent && s.starts[p] == First && NoneStale(s)
    ensures Fits(jobs, At(s, p, Look(0))) && Calm(es) && After(jobs, s, es) == At(s, p, Look(0))
  {
    OneOwn(jobs, s, p, 0);
    var begun := At(s, p, Sweep(0, |s.nodes|));
    NoneStaleAt(s, p, Sweep(0, |s.nodes|));
    hide After, Step, Stale, NoneStale;
    var sweep := SweepRun(jobs, begun, p);
    RunConcat(jobs, s, [Own(p, 0)], sweep);
    es := [Own(p, 0)] + sweep;
  }

  lemma Fill(jobs: seq<Job>, s: State, p: nat) returns (es: seq<Event>)
    requires Fits(jobs, s) && p < |jobs| && s.slot == Absent && s.starts[p] == Look(0)
    ensures Calm(es)
    ensures After(jobs, s, es) ==
      State(Absent, s.nodes + [Full(jobs[p], p, s.clock)], s.clock,
            s.starts[p := Writing(0, |s.nodes|, |jobs[p].data|)])
  {
    var job, n := jobs[p], |s.nodes|;
    OneOwn(jobs, s, p, 0);
    var s1 := At(s, p, Create(0));
    RunConcat(jobs, s, [Own(p, 0)], [Own(p, 0)]);
    OneOwn(jobs, s1, p, 0);
    es := [Own(p, 0)] + [Own(p, 0)];
    var s2 := After(jobs, s, es);
    assert s2 == At(s1.(nodes := s.nodes + [Inode(p, [], job.mode, s.clock, Temp)]), p, Writing(0, n, 0));
    if job.data != [] {
      RunConcat(jobs, s, es, [Own(p, 0)]);
      OneOwn(jobs, s2, p, 0);
      assert [] + job.data[0..0 + |job.data|] == job.data;
      es := es + [Own(p, 0)];
    }
  }

  /** One more call of p. */
  lemma Go(jobs: seq<Job>, s: State, es: seq<Event>, p: nat) returns (more: seq<Event>)
    requires Fits(jobs, s) && p < |jobs| && Calm(es)
    ensures more == es + [Own(p, 0)] && Calm(more) && After(jobs, s, more) == Move(jobs[p], After(jobs, s, es), p, 0)
  {
    hide Move;
    more := es + [Own(p, 0)];
    AfterOne(jobs, s, es, Own(p, 0));
  }

  function Rename(s: State, p: nat, n: nat): State
    requires p < |s.starts| && n < |s.nodes|
  {
    At(s.(slot := File(n), nodes := s.nodes[n := s.nodes[n].(place := Placed)]), p, Check(0, n))
  }

  predicate Poised(jobs: seq<Job>, s: State, p: nat, n: nat) {
    && p < |s.starts| && p < |jobs| && n < |s.nodes|
    && s.starts[p] == Writing(0, n, |jobs[p].data|)
    && s.nodes[n].place.Temp? && Content(s.nodes[n]) == jobs[p]
  }

  lemma RenameMoves(jobs: seq<Job>, s: State, p: nat, n: nat)
    requires Fits(jobs, s) && Poised(jobs, s, p, n) && !s.slot.Directory?
    ensures Move(jobs[p], s, p, 0) == Rename(s, p, n)
  {
  }

  /** Two starts rename in turn; the first finds the other's file at the name and opens it. */
  lemma Race(jobs: seq<Job>, s: State, i: nat, a: nat, j: nat, b: nat) returns (es: seq<Event>)
    requires Fits(jobs, s) && s.slot == Absent && i != j && a != b && Poised(jobs, s, i, a) && Poised(jobs, s, j, b)
    ensures Calm(es) && After(jobs, s, es) == At(Rename(Rename(s, i, a), j, b), i, Read(0, b))
  {
    hide After;
    es := [];
    AfterNothing(jobs, s);
    es := Go(jobs, s, es, i);
    RenameMoves(jobs, s, i, a);
    es := Go(jobs, s, es, j);
    RenameMoves(jobs, Rename(s, i, a), j, b);
    es := Go(jobs, s, es, i);
    var t := Rename(Rename(s, i, a), j, b);
    assert After(jobs, s, es) == At(t, i, Open(0));
    es := Go(jobs, s, es, i);
  }

  lemma AfterNothing(jobs: seq<Job>, s: State)
    requires Fits(jobs, s)
    ensures After(jobs, s, []) == s
  {
  }

  function Blank(jobs: seq<Job>): State { State(Absent, [], 0.0, seq(|jobs|, _ => First)) }

  lemma {:induction false} PrepareTwo(jobs: seq<Job>, i: nat, j: nat) returns (es: seq<Event>)
    requires i < |jobs| && j < |jobs| && i != j
    ensures Fits(jobs, Blank(jobs)) && Initial(jobs, Blank(jobs)) && Calm(es)
    ensures After(jobs, Blank(jobs), es) ==
      State(Absent, [Full(jobs[i], i, 0.0), Full(jobs[j], j, 0.0)], 0.0,
            Blank(jobs).starts[i := Writing(0, 0, |jobs[i].data|)][j := Writing(0, 1, |jobs[j].data|)])
  {
    hide After, Step, Move;
    var s := Blank(jobs);
    var first := Prepare(jobs, s, i);
    var second := Prepare(jobs, After(jobs, s, first), j);
    RunConcat(jobs, s, first, second);
    es := first + second;
  }

  /** With two starts that differ, the one that renamed first unlinks the other's whole file. */
  lemma RivalsLose(jobs: seq<Job>, i: nat, j: nat) returns (es: seq<Event>, e: Event)
    requires i < |jobs| && j < |jobs| && i != j && jobs[i] != jobs[j]
    ensures Loses(jobs, Blank(jobs), es, e)
  {
    hide After, Step, Fits;
    var s := Blank(jobs);
    es := PrepareTwo(jobs, i, j);
    var t := After(jobs, s, es);
    assert Poised(jobs, t, i, 0) && Poised(jobs, t, j, 1);
    var race := Race(jobs, t, i, 0, j, 1);
    RunConcat(jobs, s, es, race);
    es := Go(jobs, s, es + race, i);
    assert After(jobs, s, es).starts[i] == Drop(0);
    e := Own(i, 0);
    var whole := Go(jobs, s, es, i);
  }

  /** With three starts, even all alike, one's rename between another's open and its link count loses the name. */
  lemma ThreeLose(jobs: seq<Job>, i: nat, j: nat, l: nat) returns (es: seq<Event>, e: Event)
    requires i < |jobs| && j < |jobs| && l < |jobs| && i != j && j != l && i != l
    ensures Loses(jobs, Blank(jobs), es, e)
  {
    hide After, Step, Fits;
    var s := Blank(jobs);
    var two := PrepareTwo(jobs, i, j);
    var third := Prepare(jobs, After(jobs, s, two), l);
    RunConcat(jobs, s, two, third);
    es := two + third;
    var t := After(jobs, s, es);
    assert Poised(jobs, t, i, 0) && Poised(jobs, t, j, 1) && Poised(jobs, t, l, 2);
    var race := Race(jobs, t, i, 0, j, 1);
    RunConcat(jobs, s, es, race);
    es := Go(jobs, s, es + race, l);
    RenameMoves(jobs, After(jobs, s, two + third + race), l, 2);
    es := Go(jobs, s, es, i);
    assert After(jobs, s, es).starts[i] == Drop(0);
    e := Own(i, 0);
    var whole := Go(jobs, s, es, i);
  }

  /**
   A name that holds a file holds one at every later moment, whatever the interleaving, exactly when at most two
   starts write and both write the same.
   */
  lemma NameIsKeptIff(jobs: seq<Job>)
    ensures AtMostATwin(jobs) <==> forall s0: State, es: seq<Event>, e: Event :: !Loses(jobs, s0, es, e)
  {
    if AtMostATwin(jobs) {
      forall s0: State, es: seq<Event>, e: Event ensures !Loses(jobs, s0, es, e) {
        if Initial(jobs, s0) && Calm(es + [e]) { TwinsKeep(jobs, s0, es, e); }
      }
    } else {
      var es, e;
      if p, q :| 0 <= p < q < |jobs| && jobs[p] != jobs[q] {
        es, e := RivalsLose(jobs, p, q);
      } else {
        es, e := ThreeLose(jobs, 0, 1, 2);
      }
    }
  }

  lemma TwinsKeep(jobs: seq<Job>, s0: State, es: seq<Event>, e: Event)
    requires Initial(jobs, s0) && AtMostATwin(jobs) && Calm(es + [e])
    ensures After(jobs, s0, es).slot.File? ==> After(jobs, s0, es + [e]).slot.File?
  {
    hide After, Step, Inv;
    assert forall i | 0 <= i < |es| :: (es + [e])[i] == es[i];
    assert (es + [e])[|es|] == e;
    TwinRun(jobs, s0, es);
    RunKeeps(jobs, s0, es);
    TwinStep(jobs, s0, After(jobs, s0, es), e);
    AfterOne(jobs, s0, es, e);
  }

  // A start alone

  /** Only start p makes calls, none fails, and the clock does not go back. */
  predicate Alone(jobs: seq<Job>, s: State, es: seq<Event>, p: nat)
    requires Fits(jobs, s)
    decreases |es|
  {
    es != [] ==>
      var init, e := es[..|es| - 1], es[|es| - 1];
      && Alone(jobs, s, init, p)
      && (if e.Tick? then e.now >= After(jobs, s, init).clock else e.Own? && e.start == p)
  }

  /** How many of the events are calls. */
  function Calls(es: seq<Event>): nat {
    if es == [] then 0 else Calls(es[..|es| - 1]) + if es[|es| - 1].Own? then 1 else 0
  }

  /** An inode there at the beginning, before or after the sweep passed it. */
  predicate Swept(was: Inode, now: Inode, begun: real, clock: real) {
    if now == was then was.place.Temp? ==> begun - was.touched < STALE_TEMP_S
    else was.place.Temp? && now == was.(place := Removed) && clock - was.touched >= STALE_TEMP_S
  }

  predicate SweptTo(s: State, t: State, i: nat)
    requires |t.nodes| >= |s.nodes|
  {
    && (forall n | 0 <= n < |s.nodes| && n < i :: Swept(s.nodes[n], t.nodes[n], s.clock, t.clock))
    && (forall n | 0 <= n < |s.nodes| && n >= i :: t.nodes[n] == s.nodes[n])
  }

  /** The name is a new inode of the start's own content, every inode of before but a swept temp as it was. */
  predicate Replaced(job: Job, s: State, t: State) {
    && |t.nodes| == |s.nodes| + 1 && SweptTo(s, t, |s.nodes|)
    && t.slot == File(|s.nodes|) && Content(t.nodes[|s.nodes|]) == job
  }

  /** Where a start that runs alone from s stands. */
  predicate AloneAt(job: Job, s: State, t: State, p: nat)
    requires p < |t.starts| && (s.slot.File? ==> s.slot.node < |s.nodes|)
  {
    var same, pc := t.slot == s.slot && t.nodes == s.nodes, t.starts[p];
    && s.clock <= t.clock
    && match pc
       case First => same
       case FirstRead(n) => same && s.slot == File(n)
       case Done(Unchanged) => same && NameHolds(s, job)
       case Sweep(i, end) => Sweeping(job, s, t, i, end)
       case SweepDrop(i, end) =>
         Sweeping(job, s, t, i, end) && i < end && s.nodes[i].place.Temp? &&
         t.clock - s.nodes[i].touched >= STALE_TEMP_S
       case Look(k) => k == 0 && Sweeping(job, s, t, |s.nodes|, |s.nodes|)
       case Clear(k) => k == 0 && Sweeping(job, s, t, |s.nodes|, |s.nodes|) && t.slot.Directory?
       case Create(k) =>
         && k == 0 && !NameHolds(s, job) && !t.slot.Directory?
         && |t.nodes| == |s.nodes| && SweptTo(s, t, |s.nodes|)
       case Writing(k, n, w) =>
         && k == 0 && !NameHolds(s, job) && !t.slot.Directory? && n == |s.nodes| && w <= |job.data|
         && |t.nodes| == |s.nodes| + 1 && SweptTo(s, t, |s.nodes|)
         && t.nodes[n].place.Temp? && Content(t.nodes[n]) == Job(job.data[..w], job.mode)
       case Check(k, n) => k == 0 && !NameHolds(s, job) && t.slot == File(n) && Replaced(job, s, t)
       case Done(Written) => !NameHolds(s, job) && Replaced(job, s, t)
       case _ => false
  }

  predicate Sweeping(job: Job, s: State, t: State, i: nat, end: nat)
    requires s.slot.File? ==> s.slot.node < |s.nodes|
  {
    && !NameHolds(s, job) && t.slot == s.slot && i <= end == |s.nodes| == |t.nodes| && SweptTo(s, t, i)
  }

  /** A bound on the calls such a start still makes. */
  function ToGo(job: Job, pc: Pc, n: nat): nat {
    var writing := |job.data| + 5;
    match pc
    case First => 2 * n + writing + 3
    case FirstRead(_) => 2 * n + writing + 2
    case Sweep(i, end) => if i <= end then 2 * (end - i) + writing + 1 else 0
    case SweepDrop(i, end) => if i < end then 2 * (end - i) + writing else 0
    case Look(_) => writing
    case Clear(_) => writing - 1
    case Create(_) => writing - 2
    case Writing(_, _, w) => if w <= |job.data| then |job.data| - w + 2 else 0
    case Check(_, _) => 1
    case _ => 0
  }

  predicate AloneGoesOn(job: Job, s: State, t: State, p: nat, u: State)
    requires p < |t.starts| && (s.slot.File? ==> s.slot.node < |s.nodes|)
  {
    && |u.starts| == |t.starts| && u.clock == t.clock && AloneAt(job, s, u, p)
    && (t.starts[p].Done? ==> u == t)
    && (!t.starts[p].Done? ==> ToGo(job, u.starts[p], |s.nodes|) < ToGo(job, t.starts[p], |s.nodes|))
  }

  lemma AloneReads(job: Job, s: State, t: State, p: nat, size: nat)
    requires p < |t.starts| && (s.slot.File? ==> s.slot.node < |s.nodes|) && AloneAt(job, s, t, p)
    requires (t.slot.File? ==> t.slot.node < |t.nodes|) && PcFits(job, t.starts[p], |t.nodes|)
    requires !PastSweep(t.starts[p])
    ensures AloneGoesOn(job, s, t, p, Move(job, t, p, size))
  {
  }

  lemma AloneWrites(job: Job, s: State, t: State, p: nat, size: nat)
    requires p < |t.starts| && (s.slot.File? ==> s.slot.node < |s.nodes|) && AloneAt(job, s, t, p)
    requires (t.slot.File? ==> t.slot.node < |t.nodes|) && PcFits(job, t.starts[p], |t.nodes|)
    requires t.starts[p].Writing?
    ensures AloneGoesOn(job, s, t, p, Move(job, t, p, size))
  {
    var w := t.starts[p].size;
    if w < |job.data| {
      var more := Amount(size, |job.data| - w);
      assert job.data[..w] + job.data[w..w + more] == job.data[..w + more];
    } else {
      assert job.data[..w] == job.data;
    }
  }

  lemma AloneMove(job: Job, s: State, t: State, p: nat, size: nat)
    requires p < |t.starts| && (s.slot.File? ==> s.slot.node < |s.nodes|) && AloneAt(job, s, t, p)
    requires (t.slot.File? ==> t.slot.node < |t.nodes|) && PcFits(job, t.starts[p], |t.nodes|)
    ensures AloneGoesOn(job, s, t, p, Move(job, t, p, size))
  {
    if !PastSweep(t.starts[p]) {
      AloneReads(job, s, t, p, size);
    } else if t.starts[p].Writing? {
      AloneWrites(job, s, t, p, size);
    }
  }

  lemma AloneTick(job: Job, s: State, t: State, p: nat, now: real)
    requires p < |t.starts| && (s.slot.File? ==> s.slot.node < |s.nodes|) && AloneAt(job, s, t, p) && now >= t.clock
    ensures AloneAt(job, s, t.(clock := now), p)
  {
  }

  lemma AloneBegins(job: Job, s: State, p: nat)
    requires p < |s.starts| && (s.slot.File? ==> s.slot.node < |s.nodes|) && s.starts[p] == First
    ensures AloneAt(job, s, s, p) && ToGo(job, s.starts[p], |s.nodes|) == 2 * |s.nodes| + |job.data| + 8
  {
  }

  lemma FirstCalls(job: Job, t: State, p: nat, size: nat)
    requires p < |t.starts| && (t.slot.File? ==> t.slot.node < |t.nodes|) && PcFits(job, t.starts[p], |t.nodes|)
    ensures var pc := Move(job, t, p, size).starts[p]; !pc.First? && (pc.FirstRead? ==> t.starts[p].First?)
  {
  }

  lemma {:induction false} AloneRun(jobs: seq<Job>, s: State, es: seq<Event>, p: nat)
    requires Fits(jobs, s) && p < |jobs| && s.starts[p] == First && Alone(jobs, s, es, p)
    ensures var t := After(jobs, s, es); var ahead := ToGo(jobs[p], t.starts[p], |s.nodes|);
      && AloneAt(jobs[p], s, t, p)
      && (t.starts[p].Done? || Calls(es) + ahead <= 2 * |s.nodes| + |jobs[p].data| + 8)
      && (t.starts[p].First? ==> Calls(es) == 0) && (t.starts[p].FirstRead? ==> Calls(es) == 1)
    decreases |es|
  {
    hide AloneAt, Move, ToGo, PcFits;
    if es == [] {
      AloneBegins(jobs[p], s, p);
    } else {
      var init, e := es[..|es| - 1], es[|es| - 1];
      var t := After(jobs, s, init);
      AloneRun(jobs, s, init, p);
      if e.Tick? {
        AloneTick(jobs[p], s, t, p, e.now);
      } else {
        AloneMove(jobs[p], s, t, p, e.size);
        FirstCalls(jobs[p], t, p, e.size);
      }
    }
  }

  /** What a start that ran alone from s to t did: nothing to a name that held its job, else the job is there. */
  predicate EndsAlone(job: Job, s: State, t: State, pc: Pc)
    requires (s.slot.File? ==> s.slot.node < |s.nodes|) && (t.slot.File? ==> t.slot.node < |t.nodes|)
  {
    if NameHolds(s, job) then pc == Done(Unchanged) && t.slot == s.slot && t.nodes == s.nodes
    else pc == Done(Written) && NameHolds(t, job) && Replaced(job, s, t)
  }

  /**
   A start that runs alone and whose calls succeed always ends. An unchanged file it leaves alone, with two calls; any
   other name it makes hold its bytes and mode, in a new inode, with no temp left but those too young to be swept.
   */
  lemma RunsAlone(jobs: seq<Job>, s: State, es: seq<Event>, p: nat)
    requires Fits(jobs, s) && p < |jobs| && s.starts[p] == First && Alone(jobs, s, es, p)
    ensures var t := After(jobs, s, es);
      && (t.starts[p].Done? ==> EndsAlone(jobs[p], s, t, t.starts[p]))
      && (Calls(es) >= 2 * |s.nodes| + |jobs[p].data| + 8 ==> t.starts[p].Done?)
      && (NameHolds(s, jobs[p]) ==> t.slot == s.slot && t.nodes == s.nodes && (Calls(es) >= 2 ==> t.starts[p].Done?))
  {
    hide After;
    AloneRun(jobs, s, es, p);
  }

  // An unchanged file is left alone, whoever else runs

  /** The start's calls changed nothing. */
  predicate LeftAlone(jobs: seq<Job>, s0: State, es: seq<Event>, p: nat)
    requires Fits(jobs, s0)
  {
    forall i | 0 <= i < |es| && By(es[i], p) ::
      var s, t := After(jobs, s0, es[..i]), After(jobs, s0, es[..i + 1]); t.slot == s.slot && t.nodes == s.nodes
  }

  /** The start's first read, event i, finds the file it opened still at the name, with its own content. */
  predicate SawOwn(jobs: seq<Job>, s0: State, es: seq<Event>, i: nat, p: nat)
    requires Fits(jobs, s0) && p < |jobs|
  {
    && i < |es| && es[i].Own? && es[i].start == p
    && var s := After(jobs, s0, es[..i]);
      s.starts[p].FirstRead? && s.slot == File(s.starts[p].node) && NameHolds(s, jobs[p])
  }

  predicate Reading(pc: Pc) { pc.First? || pc.FirstRead? || pc == Done(Unchanged) }

  lemma ReadingStep(jobs: seq<Job>, s: State, e: Event, p: nat)
    requires Fits(jobs, s) && p < |jobs| && By(e, p)
    ensures var t := Step(jobs, s, e);
      && (Reading(t.starts[p]) ==> Reading(s.starts[p]) && t.slot == s.slot && t.nodes == s.nodes)
      && (t.starts[p] == Done(Unchanged) <==>
        s.starts[p] == Done(Unchanged) ||
        (e.Own? && s.starts[p].FirstRead? && s.slot == File(s.starts[p].node) && NameHolds(s, jobs[p])))
  {
  }

  /** Whoever else runs, whatever fails: a start returns Unchanged exactly when its first read saw just its content. */
  lemma {:induction false} UnchangedIff(jobs: seq<Job>, s0: State, es: seq<Event>, p: nat)
    requires Fits(jobs, s0) && p < |jobs| && s0.starts[p] == First
    ensures After(jobs, s0, es).starts[p] == Done(Unchanged) <==> exists i: nat :: SawOwn(jobs, s0, es, i, p)
    decreases |es|
  {
    hide Step, NameHolds;
    if es != [] {
      var init, e := es[..|es| - 1], es[|es| - 1];
      var s := After(jobs, s0, init);
      UnchangedIff(jobs, s0, init, p);
      forall i: nat ensures SawOwn(jobs, s0, es, i, p) <==>
        SawOwn(jobs, s0, init, i, p) || (i == |init| && SawOwn(jobs, s0, es, i, p))
      {
        if i < |init| { assert init[..i] == es[..i]; }
      }
      if By(e, p) { ReadingStep(jobs, s, e, p); } else { OnlyOwnMoves(jobs, s, e, p); }
      assert es[..|init|] == init;
      assert SawOwn(jobs, s0, es, |init|, p) <==>
        e.Own? && e.start == p && s.starts[p].FirstRead? && s.slot == File(s.starts[p].node) && NameHolds(s, jobs[p]);
    }
  }

  /** And then no call of it changed the name or any inode. */
  lemma {:induction false} UnchangedLeavesAlone(jobs: seq<Job>, s0: State, es: seq<Event>, p: nat)
    requires Fits(jobs, s0) && p < |jobs| && Reading(After(jobs, s0, es).starts[p])
    ensures LeftAlone(jobs, s0, es, p)
    decreases |es|
  {
    hide Step, Reading;
    if es != [] {
      var init, e := es[..|es| - 1], es[|es| - 1];
      var s := After(jobs, s0, init);
      if By(e, p) { ReadingStep(jobs, s, e, p); } else { OnlyOwnMoves(jobs, s, e, p); }
      UnchangedLeavesAlone(jobs, s0, init, p);
      forall i | 0 <= i < |es| && By(es[i], p)
        ensures var s, t := After(jobs, s0, es[..i]), After(jobs, s0, es[..i + 1]);
          t.slot == s.slot && t.nodes == s.nodes
      {
        if i < |init| {
          assert init[..i] == es[..i] && init[..i + 1] == es[..i + 1];
          assert By(init[i], p);
        } else {
          assert es[..i] == init && es[..i + 1] == es;
        }
      }
    }
  }

  // No temp outlives its start

  /** A temp is being written by the start that made it, or that start died. */
  predicate InFlight(s: State, n: nat)
    requires n < |s.nodes|
  {
    var q := s.nodes[n].owner;
    s.nodes[n].place.Temp? && q < |s.starts| ==>
      s.starts[q] == Done(Dead) || (s.starts[q].Writing? && s.starts[q].node == n)
  }

  lemma CallKeepsInFlight(jobs: seq<Job>, s: State, p: nat, size: nat, n: nat)
    requires WellAt(jobs, s, p) && n < |s.nodes| && InFlight(s, n)
    ensures var t := Move(jobs[p], s, p, size); |t.nodes| >= |s.nodes| && InFlight(t, n)
  {
  }

  lemma FailureKeepsInFlight(jobs: seq<Job>, s: State, p: nat, n: nat)
    requires WellAt(jobs, s, p) && n < |s.nodes| && InFlight(s, n)
    ensures var t := Failed(s, p); |t.nodes| >= |s.nodes| && InFlight(t, n)
  {
  }

  lemma NewIsInFlight(jobs: seq<Job>, s: State, p: nat, size: nat)
    requires WellAt(jobs, s, p)
    ensures var t := Move(jobs[p], s, p, size); forall n | |s.nodes| <= n < |t.nodes| :: InFlight(t, n)
    ensures |Failed(s, p).nodes| == |s.nodes|
  {
  }

  /** Over every run: a start that returned or raised has left no temp, however it raised; only a death leaves one. */
  lemma {:induction false} TempsAreInFlight(jobs: seq<Job>, s0: State, es: seq<Event>, n: nat)
    requires Initial(jobs, s0) && |s0.nodes| <= n < |After(jobs, s0, es).nodes|
    ensures InFlight(After(jobs, s0, es), n)
    decreases |es|
  {
    hide Move, Failed, Inv, InFlight, StartOk, PcFits;
    if es != [] {
      var init, e := es[..|es| - 1], es[|es| - 1];
      var s := After(jobs, s0, init);
      RunKeeps(jobs, s0, init);
      if (e.Own? || e.Fail?) && e.start < |jobs| {
        WellThere(jobs, s0, s, e.start);
        NewIsInFlight(jobs, s, e.start, if e.Own? then e.size else 0);
        if n < |s.nodes| {
          TempsAreInFlight(jobs, s0, init, n);
          CallKeepsInFlight(jobs, s, e.start, if e.Own? then e.size else 0, n);
          FailureKeepsInFlight(jobs, s, e.start, n);
        }
      } else {
        TempsAreInFlight(jobs, s0, init, n);
        OthersKeepInFlight(jobs, s, e, n);
      }
    }
  }

  lemma OthersKeepInFlight(jobs: seq<Job>, s: State, e: Event, n: nat)
    requires Fits(jobs, s) && n < |s.nodes| && InFlight(s, n) && !((e.Own? || e.Fail?) && e.start < |jobs|)
    ensures |Step(jobs, s, e).nodes| == |s.nodes| && InFlight(Step(jobs, s, e), n)
  {
  }

  // A rename

  /** A full temp is renamed exactly while it has its name and the target is no directory; else the start raises. */
  lemma RenameLandsIff(job: Job, s: State, p: nat, size: nat)
    requires p < |s.starts| && (s.slot.File? ==> s.slot.node < |s.nodes|) && PcFits(job, s.starts[p], |s.nodes|)
    requires s.starts[p].Writing? && s.starts[p].size == |job.data|
    ensures var n, t := s.starts[p].node, Move(job, s, p, size);
      if s.nodes[n].place.Temp? && !s.slot.Directory?
      then t.slot == File(n) && t.nodes[n].place.Placed? && t.starts[p] == Check(s.starts[p].k, n)
      else t.slot == s.slot && !t.nodes[n].place.Temp? && t.starts[p] == Done(Raised)
             && (t.nodes[n].place.Placed? ==> s.nodes[n].place.Placed?)
  {
  }

  lemma RemovedStep(job: Job, s: State, p: nat, size: nat, n: nat)
    requires p < |s.starts| && (s.slot.File? ==> s.slot.node < |s.nodes|) && PcFits(job, s.starts[p], |s.nodes|)
    requires n < |s.nodes| && s.nodes[n].place.Removed?
    ensures n < |Move(job, s, p, size).nodes| && Move(job, s, p, size).nodes[n].place.Removed?
    ensures n < |Failed(s, p).nodes| && Failed(s, p).nodes[n].place.Removed?
  {
  }

  /** A temp that was unlinked never comes to the name, whatever its start goes on to do. */
  lemma {:induction false} RemovedForGood(jobs: seq<Job>, s: State, es: seq<Event>, n: nat)
    requires Fits(jobs, s) && n < |s.nodes| && s.nodes[n].place.Removed?
    ensures var t := After(jobs, s, es); n < |t.nodes| && t.nodes[n].place.Removed?
    decreases |es|
  {
    hide Move, Failed;
    if es != [] {
      var init, e := es[..|es| - 1], es[|es| - 1];
      RemovedForGood(jobs, s, init, n);
      if (e.Own? || e.Fail?) && e.start < |jobs| {
        RemovedStep(jobs[e.start], After(jobs, s, init), e.start, if e.Own? then e.size else 0, n);
      }
    }
  }

  /** A directory at the name goes only when a start that saw it clears it. */
  lemma DirectoryStays(jobs: seq<Job>, s: State, e: Event)
    requires Fits(jobs, s) && s.slot.Directory? && !e.Outsider?
    ensures var t := Step(jobs, s, e);
      t.slot == if e.Own? && e.start < |jobs| && s.starts[e.start].Clear? then Absent else Directory
  {
  }

  /** A start that lost its place tries again, three times in all. */
  lemma TriesThreeTimes(job: Job, s: State, p: nat, size: nat)
    requires p < |s.starts| && (s.slot.File? ==> s.slot.node < |s.nodes|) && PcFits(job, s.starts[p], |s.nodes|)
    requires s.starts[p].Drop?
    ensures var k := s.starts[p].k;
      Move(job, s, p, size).starts[p] == Failed(s, p).starts[p] == if k < 2 then Look(k + 1) else Done(Raised)
  {
  }

  /** A sweep takes an entry it cannot judge for stale, and goes on past one it cannot unlink. */
  lemma SweepGoesOn(s: State, p: nat)
    requires p < |s.starts|
    ensures var pc := s.starts[p];
      && (pc.Sweep? && pc.next < pc.end ==> Failed(s, p) == At(s, p, SweepDrop(pc.next, pc.end)))
      && (pc.SweepDrop? ==> Failed(s, p) == At(s, p, Sweep(pc.next + 1, pc.end)))
  {
  }

  /** A temp's age counts from the last write into it. */
  lemma WriteRenewsTemp(job: Job, s: State, p: nat, size: nat)
    requires p < |s.starts| && (s.slot.File? ==> s.slot.node < |s.nodes|) && PcFits(job, s.starts[p], |s.nodes|)
    requires s.starts[p].Create? || (s.starts[p].Writing? && s.starts[p].size < |job.data|)
    ensures var t := Move(job, s, p, size);
      t.starts[p].Writing? && t.starts[p].node < |t.nodes| && t.nodes[t.starts[p].node].touched == s.clock
  {
  }

  // The code of one start, others running between its calls

  predicate NoneBy(es: seq<Event>, p: nat) {
    forall i | 0 <= i < |es| :: !By(es[i], p)
  }

  lemma {:induction false} OthersKeepPc(jobs: seq<Job>, s: State, es: seq<Event>, p: nat)
    requires Fits(jobs, s) && p < |jobs| && NoneBy(es, p)
    ensures After(jobs, s, es).starts[p] == s.starts[p]
    decreases |es|
  {
    hide Step;
    if es != [] {
      OthersKeepPc(jobs, s, es[..|es| - 1], p);
      OnlyOwnMoves(jobs, After(jobs, s, es[..|es| - 1]), es[|es| - 1], p);
    }
  }

  lemma RunOne(jobs: seq<Job>, s0: State, es: seq<Event>, s: State, e: Event)
    requires Initial(jobs, s0) && s == After(jobs, s0, es) && (e.Own? || e.Fail?) && e.start < |jobs|
    ensures Fits(jobs, s)
    ensures After(jobs, s0, es + [e]) == if e.Own? then Move(jobs[e.start], s, e.start, e.size) else Failed(s, e.start)
  {
    AfterOne(jobs, s0, es, e);
    hide After, Move, Failed;
  }

  /** The directory the starts share; the run so far is kept beside it. */
  class Folder {
    const jobs: seq<Job>
    var slot: Slot
    var nodes: seq<Inode>
    var clock: real
    var starts: seq<Pc>
    ghost var begun: State
    ghost var trace: seq<Event>

    constructor (jobs: seq<Job>, slot: Slot, nodes: seq<Inode>, clock: real)
      requires slot.File? ==> slot.node < |nodes|
      requires forall n | 0 <= n < |nodes| :: nodes[n].place.Placed? <==> slot == File(n)
      ensures this.jobs == jobs && Valid() && trace == []
      ensures View() == State(slot, nodes, clock, seq(|jobs|, _ => First))
    {
      this.jobs, this.slot, this.nodes, this.clock := jobs, slot, nodes, clock;
      starts := seq(|jobs|, _ => First);
      begun, trace := State(slot, nodes, clock, seq(|jobs|, _ => First)), [];
    }

    function View(): State
      reads this
    {
      State(slot, nodes, clock, starts)
    }

    /** The folder is where the events so far lead from where it began. */
    ghost predicate Valid()
      reads this
    {
      Initial(jobs, begun) && View() == After(jobs, begun, trace)
    }

    /** Whatever the other starts, the clock and anyone else do while start p is between two calls. */
    method Others(p: nat)
      requires Valid() && p < |jobs| && p < |starts|
      modifies this
      ensures Valid() && begun == old(begun) && old(trace) <= trace && p < |starts| && starts[p] == old(starts[p])
    {
      hide Step;
      var count: int := *;
      while count > 0
        invariant Valid() && begun == old(begun) && old(trace) <= trace && p < |starts| && starts[p] == old(starts[p])
      {
        var e: Event := *;
        if !By(e, p) {
          AfterOne(jobs, begun, trace, e);
          OnlyOwnMoves(jobs, View(), e, p);
          var t := Step(jobs, View(), e);
          slot, nodes, clock, starts := t.slot, t.nodes, t.clock, t.starts;
          trace := trace + [e];
        }
        count := count - 1;
      }
    }

    /** The run goes on by the call that led from was to here. */
    ghost method Record(was: State, e: Event)
      requires Initial(jobs, begun) && was == After(jobs, begun, trace) && (e.Own? || e.Fail?) && e.start < |jobs|
      requires View() == After(jobs, begun, trace + [e])
      modifies this`trace
      ensures Valid() && trace == old(trace) + [e]
    {
      trace := trace + [e];
    }

    /** Others run; then the next call of start p is due, and may fail. */
    method Before(p: nat, size: nat) returns (fails: bool, ghost was: State, ghost e: Event)
      requires Valid() && p < |jobs| && p < |starts|
      modifies this
      ensures Valid() && begun == old(begun) && old(trace) <= trace && p < |starts| && starts[p] == old(starts[p])
      ensures was == View() && Fits(jobs, was) && e == if fails then Fail(p) else Own(p, size)
      ensures After(jobs, begun, trace + [e]) == if fails then Failed(was, p) else Move(jobs[p], was, p, size)
    {
      hide Move, Failed, After, Initial;
      Others(p);
      fails := *;
      was := View();
      e := if fails then Fail(p) else Own(p, size);
      RunOne(jobs, begun, trace, was, e);
    }

    // One system call each

    method OpenCall(p: nat, fails: bool) returns (ok: bool, n: nat)
      requires Fits(jobs, View()) && p < |jobs| && (starts[p].First? || starts[p].Open?)
      modifies this`starts
      ensures View() == if fails then Failed(old(View()), p) else Move(jobs[p], old(View()), p, 0)
      ensures starts[p] ==
        if old(starts[p]).First? then if ok then FirstRead(n) else Sweep(0, |nodes|)
        else if ok then Read(old(starts[p]).k, n) else Drop(old(starts[p]).k)
    {
      ok, n := slot.File? && !fails, 0;
      if ok { n := slot.node; }
      if starts[p].First? {
        starts := starts[p := if ok then FirstRead(n) else Sweep(0, |nodes|)];
      } else {
        starts := starts[p := if ok then Read(starts[p].k, n) else Drop(starts[p].k)];
      }
    }

    /** fstat and the read: the file opened is still the name's only link and holds the job. */
    method ReadCall(p: nat, n: nat, fails: bool) returns (held: bool)
      requires Fits(jobs, View()) && p < |jobs| && n < |nodes|
      requires starts[p] == FirstRead(n) || (starts[p].Read? && starts[p].node == n)
      modifies this`starts
      ensures View() == if fails then Failed(old(View()), p) else Move(jobs[p], old(View()), p, 0)
      ensures fails ==> starts[p] == Done(Raised)
      ensures held <==> !fails && slot == File(n) && Content(nodes[n]) == jobs[p]
      ensures held ==> starts[p] == Done(if old(starts[p]).FirstRead? then Unchanged else Written)
      ensures !fails && !held ==>
        starts[p] == if old(starts[p]).FirstRead? then Sweep(0, |nodes|) else Drop(old(starts[p]).k)
    {
      held := slot == File(n) && nodes[n].bytes == jobs[p].data && nodes[n].mode == jobs[p].mode && !fails;
      if fails {
        starts := starts[p := Done(Raised)];
      } else if starts[p].FirstRead? {
        starts := starts[p := if held then Done(Unchanged) else Sweep(0, |nodes|)];
      } else {
        starts := starts[p := if held then Done(Written) else Drop(starts[p].k)];
      }
    }

    /** The stat of one directory entry: a temp older than the limit, or one that cannot be judged, is to go. */
    method JudgeCall(p: nat, i: nat, end: nat, fails: bool) returns (stale: bool)
      requires Fits(jobs, View()) && p < |jobs| && starts[p] == Sweep(i, end) && i < end
      modifies this`starts
      ensures View() == if fails then Failed(old(View()), p) else Move(jobs[p], old(View()), p, 0)
      ensures starts[p] == if stale then SweepDrop(i, end) else Sweep(i + 1, end)
    {
      stale := fails || (nodes[i].place.Temp? && clock - nodes[i].touched >= STALE_TEMP_S);
      starts := starts[p := if stale then SweepDrop(i, end) else Sweep(i + 1, end)];
    }

    method SweepUnlinkCall(p: nat, i: nat, end: nat, fails: bool)
      requires Fits(jobs, View()) && p < |jobs| && starts[p] == SweepDrop(i, end)
      modifies this`starts, this`nodes
      ensures View() == if fails then Failed(old(View()), p) else Move(jobs[p], old(View()), p, 0)
      ensures starts[p] == Sweep(i + 1, end)
    {
      if !fails && nodes[i].place.Temp? { nodes := nodes[i := nodes[i].(place := Removed)]; }
      starts := starts[p := Sweep(i + 1, end)];
    }

    method EndSweep(p: nat, end: nat, fails: bool)
      requires Fits(jobs, View()) && p < |jobs| && starts[p] == Sweep(end, end)
      modifies this`starts
      ensures View() == if fails then Failed(old(View()), p) else Move(jobs[p], old(View()), p, 0)
      ensures starts[p] == Look(0)
    {
      starts := starts[p := Look(0)];
    }

    method IsDirCall(p: nat, k: nat, fails: bool) returns (dir: bool)
      requires Fits(jobs, View()) && p < |jobs| && starts[p] == Look(k)
      modifies this`starts
      ensures View() == if fails then Failed(old(View()), p) else Move(jobs[p], old(View()), p, 0)
      ensures starts[p] == if fails then Done(Raised) else if dir then Clear(k) else Create(k)
    {
      dir := slot.Directory?;
      starts := starts[p := if fails then Done(Raised) else if dir then Clear(k) else Create(k)];
    }

    method RmtreeCall(p: nat, k: nat, fails: bool) returns (ok: bool)
      requires Fits(jobs, View()) && p < |jobs| && starts[p] == Clear(k)
      modifies this`starts, this`slot
      ensures View() == if fails then Failed(old(View()), p) else Move(jobs[p], old(View()), p, 0)
      ensures starts[p] == if ok then Create(k) else Done(Raised)
    {
      ok := slot.Directory? && !fails;
      if ok { slot := Absent; }
      starts := starts[p := if ok then Create(k) else Done(Raised)];
    }

    /** The temp, created exclusively, and its mode. */
    method CreateCall(p: nat, k: nat, fails: bool) returns (n: nat)
      requires Fits(jobs, View()) && p < |jobs| && starts[p] == Create(k)
      modifies this`starts, this`nodes
      ensures View() == if fails then Failed(old(View()), p) else Move(jobs[p], old(View()), p, 0)
      ensures starts[p] == if fails then Done(Raised) else Writing(k, n, 0)
    {
      n := |nodes|;
      if fails {
        starts := starts[p := Done(Raised)];
      } else {
        nodes := nodes + [Inode(p, [], jobs[p].mode, clock, Temp)];
        starts := starts[p := Writing(k, n, 0)];
      }
    }

    /** One os.write of part of what is left. */
    method WriteCall(p: nat, k: nat, n: nat, done: nat, size: nat, fails: bool) returns (now: nat)
      requires Fits(jobs, View()) && p < |jobs| && starts[p] == Writing(k, n, done) && done < |jobs[p].data|
      modifies this`starts, this`nodes
      ensures View() == if fails then Failed(old(View()), p) else Move(jobs[p], old(View()), p, size)
      ensures done <= now <= |jobs[p].data| && (!fails ==> done < now)
      ensures starts[p] == if fails then Done(Raised) else Writing(k, n, now)
    {
      now := done;
      if fails {
        if nodes[n].place.Temp? { nodes := nodes[n := nodes[n].(place := Removed)]; }
        starts := starts[p := Done(Raised)];
      } else {
        now := done + Amount(size, |jobs[p].data| - done);
        nodes := nodes[n := nodes[n].(bytes := nodes[n].bytes + jobs[p].data[done..now], touched := clock)];
        starts := starts[p := Writing(k, n, now)];
      }
    }

    /** os.replace of the temp onto the name, the temp unlinked when it fails. */
    method ReplaceCall(p: nat, k: nat, n: nat, fails: bool) returns (ok: bool)
      requires Fits(jobs, View()) && p < |jobs| && starts[p] == Writing(k, n, |jobs[p].data|)
      modifies this`starts, this`nodes, this`slot
      ensures View() == if fails then Failed(old(View()), p) else Move(jobs[p], old(View()), p, 0)
      ensures starts[p] == if ok then Check(k, n) else Done(Raised)
    {
      ok := nodes[n].place.Temp? && !slot.Directory? && !fails;
      if ok {
        slot := File(n);
        nodes := nodes[n := nodes[n].(place := Placed)];
        starts := starts[p := Check(k, n)];
      } else {
        if nodes[n].place.Temp? { nodes := nodes[n := nodes[n].(place := Removed)]; }
        starts := starts[p := Done(Raised)];
      }
    }

    method LstatCall(p: nat, k: nat, n: nat, fails: bool) returns (mine: bool)
      requires Fits(jobs, View()) && p < |jobs| && starts[p] == Check(k, n)
      modifies this`starts
      ensures View() == if fails then Failed(old(View()), p) else Move(jobs[p], old(View()), p, 0)
      ensures starts[p] == if fails then Done(Raised) else if mine then Done(Written) else Open(k)
    {
      mine := slot == File(n);
      starts := starts[p := if fails then Done(Raised) else if mine then Done(Written) else Open(k)];
    }

    method DropCall(p: nat, k: nat, fails: bool)
      requires Fits(jobs, View()) && p < |jobs| && starts[p] == Drop(k)
      modifies this`starts, this`slot
      ensures View() == if fails then Failed(old(View()), p) else Move(jobs[p], old(View()), p, 0)
      ensures starts[p] == if k + 1 < ATTEMPTS then Look(k + 1) else Done(Raised)
    {
      if !fails && !slot.Directory? { slot := Absent; }
      starts := starts[p := if k + 1 < ATTEMPTS then Look(k + 1) else Done(Raised)];
    }

    // The functions of the file

    ghost predicate Ongoing(p: nat, s0: State, before: seq<Event>)
      reads this
    {
      Valid() && begun == s0 && before <= trace && p < |jobs| && p < |starts|
    }

    /** _holds, before the write and after an attempt. */
    method HoldsJob(p: nat) returns (held: bool)
      requires Ongoing(p, begun, trace) && (starts[p].First? || starts[p].Open?)
      modifies this
      ensures Ongoing(p, old(begun), old(trace))
      ensures held ==> starts[p] == Done(if old(starts[p]).First? then Unchanged else Written)
      ensures !held ==> NotHeld(old(starts[p]), starts[p])
    {
      hide Move, Failed, After, Initial, PcFits;
      var fails, was, e := Before(p, 0);
      var ok, n := OpenCall(p, fails);
      Record(was, e);
      held := false;
      if ok {
        fails, was, e := Before(p, 0);
        ReadFits(jobs[p], starts[p], |nodes|);
        held := ReadCall(p, n, fails);
        Record(was, e);
      }
    }

    /** _sweep_stale_temps: every entry there was when it began, one by one. */
    method SweepStaleTemps(p: nat)
      requires Ongoing(p, begun, trace) && starts[p].Sweep? && starts[p].next == 0
      modifies this
      ensures Ongoing(p, old(begun), old(trace)) && starts[p] == Look(0)
    {
      hide Move, Failed, After, Initial;
      ghost var s0, before := begun, trace;
      var end := starts[p].end;
      for i := 0 to end
        invariant Ongoing(p, s0, before) && starts[p] == Sweep(i, end)
      {
        var fails, was, e := Before(p, 0);
        var stale := JudgeCall(p, i, end, fails);
        Record(was, e);
        if stale {
          fails, was, e := Before(p, 0);
          SweepUnlinkCall(p, i, end, fails);
          Record(was, e);
        }
      }
      var fails, was, e := Before(p, 0);
      EndSweep(p, end, fails);
      Record(was, e);
    }

    /** All bytes, by as many writes as it takes. */
    method WriteAll(p: nat, k: nat, n: nat) returns (ok: bool)
      requires Ongoing(p, begun, trace) && starts[p] == Writing(k, n, 0)
      modifies this
      ensures Ongoing(p, old(begun), old(trace))
      ensures starts[p] == if ok then Writing(k, n, |jobs[p].data|) else Done(Raised)
    {
      hide Move, Failed, After, Initial;
      ghost var s0, before := begun, trace;
      var done := 0;
      while done < |jobs[p].data|
        invariant Ongoing(p, s0, before) && done <= |jobs[p].data| && starts[p] == Writing(k, n, done)
      {
        var size: int := *;
        var fails, was, e := Before(p, if size < 0 then 0 else size);
        done := WriteCall(p, k, n, done, if size < 0 then 0 else size, fails);
        Record(was, e);
        if fails {
          return false;
        }
      }
      return true;
    }

    /** A directory at the name is removed. */
    method MakeWay(p: nat, k: nat) returns (ok: bool)
      requires Ongoing(p, begun, trace) && starts[p] == Look(k)
      modifies this
      ensures Ongoing(p, old(begun), old(trace))
      ensures starts[p] == if ok then Create(k) else Done(Raised)
    {
      hide Move, Failed, After, Initial, PcFits;
      var fails, was, e := Before(p, 0);
      var dir := IsDirCall(p, k, fails);
      Record(was, e);
      ok := !fails;
      if ok && dir {
        fails, was, e := Before(p, 0);
        ok := RmtreeCall(p, k, fails);
        Record(was, e);
      }
    }

    /** A temp with all the bytes. */
    method WriteTemp(p: nat, k: nat) returns (ok: bool, n: nat)
      requires Ongoing(p, begun, trace) && starts[p] == Create(k)
      modifies this
      ensures Ongoing(p, old(begun), old(trace))
      ensures starts[p] == if ok then Writing(k, n, |jobs[p].data|) else Done(Raised)
    {
      hide Move, Failed, After, Initial, PcFits;
      var fails, was, e := Before(p, 0);
      n := CreateCall(p, k, fails);
      Record(was, e);
      ok := !fails;
      if ok {
        ok := WriteAll(p, k, n);
      }
    }

    /** Clear the way, write a temp and rename it onto the name. */
    method PutInPlace(p: nat, k: nat) returns (ok: bool, n: nat)
      requires Ongoing(p, begun, trace) && starts[p] == Look(k)
      modifies this
      ensures Ongoing(p, old(begun), old(trace))
      ensures starts[p] == if ok then Check(k, n) else Done(Raised)
    {
      hide Move, Failed, After, Initial, PcFits;
      ok, n := false, 0;
      var clear := MakeWay(p, k);
      if !clear { return; }
      var written;
      written, n := WriteTemp(p, k);
      if !written { return; }
      var fails, was, e := Before(p, 0);
      ok := ReplaceCall(p, k, n, fails);
      Record(was, e);
    }

    /** One attempt: in place and seen there, or held anyway, or the name unlinked for the next. */
    method Attempt(p: nat, k: nat)
      requires Ongoing(p, begun, trace) && starts[p] == Look(k)
      modifies this
      ensures Ongoing(p, old(begun), old(trace))
      ensures Reported(starts[p]) || starts[p] == Done(Raised) || (k + 1 < ATTEMPTS && starts[p] == Look(k + 1))
    {
      hide Move, Failed, After, Initial, PcFits;
      var placed, n := PutInPlace(p, k);
      if !placed { return; }
      var fails, was, e := Before(p, 0);
      var mine := LstatCall(p, k, n, fails);
      Record(was, e);
      if fails || mine { return; }
      var held := HoldsJob(p);
      if held || starts[p].Done? { return; }
      fails, was, e := Before(p, 0);
      DropCall(p, k, fails);
      Record(was, e);
    }

    /**
     write_if_changed of start p amid any others. It always ends; having returned, it saw its own bytes at the name at
     one moment of its call, and the name was never, to anyone, a part of a content.
     */
    method WriteIfChanged(p: nat) returns (outcome: Outcome, ghost seen: nat)
      requires Ongoing(p, begun, trace) && starts[p] == First
      modifies this
      ensures Ongoing(p, old(begun), old(trace)) && starts[p] == Done(outcome)
      ensures outcome != Raised ==>
        |old(trace)| <= seen < |trace| && NameHolds(After(jobs, begun, trace[..seen]), jobs[p])
      ensures slot.File? ==> slot.node < |nodes| && Whole(jobs, begun, nodes[slot.node])
      ensures (outcome == Unchanged <==> exists i: nat :: SawOwn(jobs, begun, trace, i, p))
      ensures outcome == Unchanged ==> LeftAlone(jobs, begun, trace, p)
      ensures Alone(jobs, old(View()), trace[|old(trace)|..], p) ==>
        EndsAlone(jobs[p], old(View()), View(), Done(outcome))
    {
      hide Move, Failed, After, Initial, Whole, NameHolds, SawOwn, LeftAlone, Alone, EndsAlone;
      ghost var was := View();
      ghost var s0, before := begun, trace;
      InitialFits(jobs, s0);
      assert After(jobs, s0, before).starts[p] == First;
      var held := HoldsJob(p);
      if !held && !starts[p].Done? {
        SweepStaleTemps(p);
        var k := 0;
        while k < ATTEMPTS && !starts[p].Done?
          invariant k <= ATTEMPTS && Ongoing(p, s0, before)
          invariant starts[p] == Done(Raised) || Reported(starts[p]) || (k < ATTEMPTS && starts[p] == Look(k))
        {
          Attempt(p, k);
          k := k + 1;
        }
      }
      outcome := starts[p].outcome;
      ReaderFindsWhole(jobs, begun, trace);
      Ended(jobs, s0, before, trace, p);
      seen := 0;
      if outcome != Raised {
        seen := SeenSince(jobs, begun, before, trace, p);
      }
    }
  }

  /** What a start that has ended did, read off the run. */
  lemma Ended(jobs: seq<Job>, s0: State, before: seq<Event>, es: seq<Event>, p: nat)
    requires Initial(jobs, s0) && p < |jobs| && before <= es
    requires After(jobs, s0, before).starts[p] == First && After(jobs, s0, es).starts[p].Done?
    ensures var pc := After(jobs, s0, es).starts[p];
      && (pc == Done(Unchanged) <==> exists i: nat :: SawOwn(jobs, s0, es, i, p))
      && (pc == Done(Unchanged) ==> LeftAlone(jobs, s0, es, p))
    ensures var was, t := After(jobs, s0, before), After(jobs, s0, es);
      Alone(jobs, was, es[|before|..], p) ==> EndsAlone(jobs[p], was, t, t.starts[p])
  {
    hide After, SawOwn, LeftAlone, Alone, EndsAlone;
    UnchangedIff(jobs, s0, es, p);
    if After(jobs, s0, es).starts[p] == Done(Unchanged) { UnchangedLeavesAlone(jobs, s0, es, p); }
    var was, rest := After(jobs, s0, before), es[|before|..];
    assert es == before + rest;
    RunConcat(jobs, s0, before, rest);
    if Alone(jobs, was, rest, p) { RunsAlone(jobs, was, rest, p); }
  }

  /** What a returned start saw at the name, it saw after it began. */
  lemma SeenSince(jobs: seq<Job>, s0: State, before: seq<Event>, es: seq<Event>, p: nat) returns (i: nat)
    requires Initial(jobs, s0) && p < |jobs| && before <= es
    requires After(jobs, s0, before).starts[p] == First && Reported(After(jobs, s0, es).starts[p])
    ensures |before| <= i < |es| && NameHolds(After(jobs, s0, es[..i]), jobs[p])
  {
    i := ReturnMeansHeld(jobs, s0, es, p);
    assert es[..|before|] == before;
    ReturnedLater(jobs, s0, es, |before|, i, p);
  }

  lemma InitialFits(jobs: seq<Job>, s: State)
    requires Initial(jobs, s)
    ensures Fits(jobs, s)
  {
  }

  predicate NotHeld(from: Pc, to: Pc) {
    || to == Done(Raised)
    || (if from.First? then to.Sweep? && to.next == 0 else from.Open? && to == Drop(from.k))
  }

  lemma ReadFits(job: Job, pc: Pc, n: nat)
    requires PcFits(job, pc, n)
    ensures pc.FirstRead? || pc.Read? ==> pc.node < n
    ensures pc.Sweep? || pc.SweepDrop? ==> pc.next <= pc.end
  {
  }

  /** A start still at its beginning when a run is so long returned later than that. */
  lemma ReturnedLater(jobs: seq<Job>, s0: State, es: seq<Event>, m: nat, i: nat, p: nat)
    requires Fits(jobs, s0) && p < |jobs| && m <= |es| && i < |es|
    requires After(jobs, s0, es[..m]).starts[p] == First
    requires Reported(After(jobs, s0, es[..i + 1]).starts[p])
    ensures m <= i
  {
    hide After, Fits;
    if i < m {
      assert es[..m] == es[..i + 1] + es[i + 1..m];
      ReportedStays(jobs, s0, es[..i + 1], es[i + 1..m], p);
    }
  }

  lemma {:induction false} ReportedStays(jobs: seq<Job>, s0: State, es: seq<Event>, more: seq<Event>, p: nat)
    requires Fits(jobs, s0) && p < |jobs| && Reported(After(jobs, s0, es).starts[p])
    ensures Reported(After(jobs, s0, es + more).starts[p])
    decreases |more|
  {
    hide Fits, Reported, Step;
    if more == [] {
      assert es + more == es;
    } else {
      var rest := more[..|more| - 1];
      ReportedStays(jobs, s0, es, rest, p);
      assert es + more == (es + rest) + [more[|more| - 1]];
      AfterOne(jobs, s0, es + rest, more[|more| - 1]);
      hide After;
      ReportedHolds(jobs, After(jobs, s0, es + rest), more[|more| - 1], p);
    }
  }

  lemma ReportedHolds(jobs: seq<Job>, s: State, e: Event, p: nat)
    requires Fits(jobs, s) && p < |jobs| && Reported(s.starts[p])
    ensures Reported(Step(jobs, s, e).starts[p])
  {
    if !By(e, p) { OnlyOwnMoves(jobs, s, e, p); }
  }
}
