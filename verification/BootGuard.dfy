/**
 The satellite's boot guard: it counts the boots of an update that never authenticated and rolls
 back to the previous build. The directory is a value; every file operation may fail, a removal may
 stop half way, a write may be torn, and the process may die between any two operations.
 */
module BootGuard {
  import opened Wrappers
  import opened Text

  /** A build's directory: which build, whether all its code is there, whether its venv is. */
  datatype Tree = Tree(build: string, whole: bool, venv: bool)

  datatype Disk = Disk(
    marker: Option<string>,     // .update_in_progress
    stamp: Option<string>,      // .last_successful_boot
    current: Option<Tree>,      // satellite
    previous: Option<Tree>,     // satellite.previous
    staged: Option<Tree>)       // satellite.new

  const MAX_ATTEMPTS := 2

  // The marker's text

  /** The lines of the text as read. */
  function Body(text: string): seq<string> { Parsed(Universal(text)) }

  function Parsed(text: string): seq<string> { Lines(Strip(text)) }

  function First(text: string): string { Body(text)[0] }

  function Target(text: string): string {
    if |Body(text)| > 1 then Body(text)[1] else ""
  }

  function Attempts(text: string): nat {
    if |Body(text)| > 2 && IsDigits(Body(text)[2]) then ParseNat(Body(text)[2]) else 0
  }

  function Render(previous: string, target: string, attempts: nat): string {
    previous + "\n" + target + "\n" + Decimal(attempts) + "\n"
  }

  /** What one more counted boot writes over the marker. */
  function Next(text: string): string {
    Render(First(text), Target(text), Attempts(text) + 1)
  }

  // The stamp's text: a carriage return ends its first line whether or not it was read as a newline

  predicate IsLineBreak(c: char) {
    var n := c as int;
    0x0a <= n <= 0x0d || 0x1c <= n <= 0x1e || n in {0x85, 0x2028, 0x2029}
  }

  /** The first of splitlines(), or "". */
  function FirstBreakless(s: string): string {
    if s == "" || IsLineBreak(s[0]) then "" else [s[0]] + FirstBreakless(s[1..])
  }

  function StampVersion(stamp: Option<string>): string {
    if stamp.None? then "" else Strip(FirstBreakless(stamp.value))
  }

  // One boot, operation by operation

  datatype Phase =
    | Off            // no process
    | Guard          // booted, nothing read yet
    | DropMarker | DropPrevious               // the update already authenticated
    | Carry | Clear | Swap | Unmark | Tidy    // rolling back
    | Bump           // counting this boot
    | Running        // the guard returned

  datatype State = State(disk: Disk, phase: Phase)

  predicate Authenticated(d: Disk)
    requires d.marker.Some?
  {
    Target(d.marker.value) != "" && StampVersion(d.stamp) == Target(d.marker.value)
  }

  /** What the guard decides to do, from what it reads. */
  function Decide(d: Disk): Phase {
    if d.marker.None? then Running
    else if Authenticated(d) then DropMarker
    else if Attempts(d.marker.value) < MAX_ATTEMPTS then Bump
    else if d.previous.None? then Running
    else Carry
  }

  /** The venv lives only in the current tree. */
  predicate NeedsVenv(d: Disk) {
    d.current.Some? && d.current.value.venv && d.previous.Some? && !d.previous.value.venv
  }

  function Carried(d: Disk): Disk
    requires NeedsVenv(d)
  {
    d.(current := Some(d.current.value.(venv := false)),
       previous := Some(d.previous.value.(venv := true)))
  }

  /** What a removal may leave of a tree: nothing, or any part of it. */
  predicate Removing(before: Option<Tree>, after: Option<Tree>) {
    after.None? ||
    (before.Some? && after.value.build == before.value.build
     && (after.value.whole ==> before.value.whole) && (after.value.venv ==> before.value.venv))
  }

  /** An operation of the guard that ran to its end, well or badly. */
  predicate Operation(s: State, s': State) {
    var d, d' := s.disk, s'.disk;
    match s.phase
    case Guard =>
      d' == d && s'.phase == Decide(d)
    case DropMarker =>
      (d' == d || d' == d.(marker := None)) && s'.phase == DropPrevious
    case DropPrevious =>
      Removing(d.previous, d'.previous) && d' == d.(previous := d'.previous) && s'.phase == Running
    case Carry =>
      if NeedsVenv(d) then s' == State(Carried(d), Clear) || s' == State(d, Running)
      else s' == State(d, Clear)
    case Clear =>
      || s' == State(d.(current := None), Swap)
      || (d.current.Some? && Removing(d.current, d'.current)
          && s' == State(d.(current := d'.current), Running))
    case Swap =>
      || (d.previous.Some? && d.current.None?
          && s' == State(d.(current := d.previous, previous := None), Unmark))
      || s' == State(d, Running)
    case Unmark =>
      (d' == d || d' == d.(marker := None)) && s'.phase == Tidy
    case Tidy =>
      Removing(d.staged, d'.staged) && d' == d.(staged := d'.staged) && s'.phase == Off
    case Bump =>
      d.marker.Some? && s' == State(d.(marker := Some(Next(d.marker.value))), Running)
    case _ => false
  }

  /** The process dies: a rename or an unlink happened or did not, a removal or a write stopped part-way. */
  predicate Death(s: State, s': State) {
    var d, d' := s.disk, s'.disk;
    && s.phase != Off && s'.phase == Off
    && (|| d' == d
        || (s.phase == DropPrevious && Removing(d.previous, d'.previous) && d' == d.(previous := d'.previous))
        || (s.phase == Clear && Removing(d.current, d'.current) && d' == d.(current := d'.current))
        || (s.phase == Tidy && Removing(d.staged, d'.staged) && d' == d.(staged := d'.staged))
        || (s.phase == Bump && d.marker.Some? && d'.marker.Some?
            && d'.marker.value <= Next(d.marker.value) && d' == d.(marker := d'.marker)))
  }

  predicate GuardStep(s: State, s': State) {
    || (s.phase == Off && s' == State(s.disk, Guard))
    || Operation(s, s')
    || Death(s, s')
  }

  /** The running build authenticated: it stamps its version, then may drop marker and rollback copy. */
  predicate Finalizes(s: State, s': State) {
    var d, d' := s.disk, s'.disk;
    && s.phase == Running && s'.phase == Running && d.current.Some?
    && (d'.marker == d.marker || d'.marker.None?)
    && Removing(d.previous, d'.previous)
    && (|| d'.stamp == d.stamp
        || (d'.stamp.Some? && d.current.value.build + "\n" <= d'.stamp.value))
    && d' == d.(marker := d'.marker, previous := d'.previous, stamp := d'.stamp)
  }

  /** A run in which the update never authenticates. */
  ghost predicate GuardRun(ss: seq<State>) {
    |ss| > 0 && forall i | 0 <= i < |ss| - 1 :: GuardStep(ss[i], ss[i + 1])
  }

  /** Any run. */
  ghost predicate Run(ss: seq<State>) {
    |ss| > 0 && forall i | 0 <= i < |ss| - 1 ::
      GuardStep(ss[i], ss[i + 1]) || Finalizes(ss[i], ss[i + 1])
  }

  // Facts about the marker's text

  lemma FirstOfInk(text: string)
    ensures Blank(text) ==> Body(text) == [""]
    ensures !Blank(text) ==> First(text) != "" && !IsSpace(First(text)[0])
  {
    var read := Universal(text);
    UniversalBlank(text);
    var lo, hi := StripSplits(read);
    var tight := Strip(read);
    if !Blank(text) {
      var k := FirstNewline(tight);
      assert tight[0] != NEWLINE;
      assert First(text) == tight[..k];
    }
  }

  /** No line read from the marker holds a line end of any kind. */
  lemma PlainLines(text: string)
    ensures RETURN !in First(text) && RETURN !in Target(text)
    ensures RETURN !in Next(text) && Body(Next(text)) == Parsed(Next(text))
  {
    hide Lines, Strip, Universal;
    var read := Universal(text);
    var lo, hi := StripSplits(read);
    assert forall c | c in Strip(read) :: c in read;
    LinesHoldOnly(Strip(read), RETURN);
    RenderIsPlain(First(text), Target(text), Attempts(text) + 1);
    UniversalOfPlain(Next(text));
  }

  lemma RenderIsPlain(p: string, t: string, n: nat)
    requires RETURN !in p && RETURN !in t
    ensures RETURN !in Render(p, t, n)
  {
    assert forall c | c in Decimal(n) :: IsDigit(c);
  }

  /** A rendered marker parses back whole when its first line has ink, and its two other lines move up when not. */
  lemma BodyOfRender(p: string, t: string, n: nat)
    requires NEWLINE !in p && NEWLINE !in t
    ensures !Blank(p) ==> Parsed(Render(p, t, n)) == [LStrip(p), t, Decimal(n)]
    ensures Blank(p) && !Blank(t) ==> Parsed(Render(p, t, n)) == [LStrip(t), Decimal(n)]
    ensures Blank(p) && Blank(t) ==> Parsed(Render(p, t, n)) == [Decimal(n)]
  {
    var digits := Decimal(n);
    DigitsAreInk(digits);
    LinesStep(digits, "");
    if Blank(p) && Blank(t) {
      assert Render(p, t, n) == (p + "\n" + t + "\n") + (digits + "\n");
      StripOfMargins(p + "\n" + t + "\n", digits, "\n");
    } else if Blank(p) {
      BodyOfBlankFirst(p, t, digits);
    } else {
      BodyOfInkFirst(p, t, digits);
    }
  }

  lemma BodyOfInkFirst(p: string, t: string, digits: string)
    requires NEWLINE !in p && NEWLINE !in t && IsDigits(digits) && !Blank(p)
    ensures Parsed(p + "\n" + t + "\n" + digits + "\n") == [LStrip(p), t, digits]
  {
    hide Lines, Strip;
    var j := LStripSplits(p);
    var rest := t + "\n" + digits;
    DigitsAreInk(digits);
    assert p[j..] != "" && !IsSpace(p[j..][0]);
    BodyOfMarginAndFirst(p[..j], p[j..], rest);
    Reassociate(p, j, t, digits);
    LinesOfTwo(t, digits);
  }

  lemma Reassociate(p: string, j: nat, t: string, digits: string)
    requires j <= |p|
    ensures p + "\n" + t + "\n" + digits + "\n" == p[..j] + (p[j..] + "\n" + (t + "\n" + digits) + "\n")
  {
    assert p == p[..j] + p[j..];
  }

  lemma LinesOfTwo(t: string, digits: string)
    requires NEWLINE !in t && NEWLINE !in digits
    ensures Lines(t + "\n" + digits) == [t, digits]
  {
    LinesStep(digits, "");
    LinesStep(t, digits);
  }

  lemma BodyOfMarginAndFirst(margin: string, first: string, rest: string)
    requires Blank(margin) && first != "" && !IsSpace(first[0]) && NEWLINE !in first
    requires rest != "" && !IsSpace(rest[|rest| - 1])
    ensures Parsed(margin + (first + "\n" + rest + "\n")) == [first] + Lines(rest)
  {
    var core := first + "\n" + rest;
    assert core[0] == first[0] && core[|core| - 1] == rest[|rest| - 1];
    StripOfMargins(margin, core, "\n");
    LinesStep(first, rest);
  }

  lemma BodyOfBlankFirst(p: string, t: string, digits: string)
    requires NEWLINE !in p && NEWLINE !in t && IsDigits(digits) && Blank(p) && !Blank(t)
    ensures Parsed(p + "\n" + t + "\n" + digits + "\n") == [LStrip(t), digits]
  {
    hide Lines, Strip;
    var k := LStripSplits(t);
    DigitsAreInk(digits);
    assert t[k..] != "" && !IsSpace(t[k..][0]);
    BodyOfMarginAndFirst(p + "\n" + t[..k], t[k..], digits);
    assert p + "\n" + t + "\n" + digits + "\n" == (p + "\n" + t[..k]) + (t[k..] + "\n" + digits + "\n");
    LinesStep(digits, "");
  }

  lemma StripOfMargins(m: string, core: string, m': string)
    requires Blank(m) && Blank(m') && core != "" && Tight(core)
    ensures Strip(m + (core + m')) == core
  {
    LStripMargin(m, core + m');
    RStripMargin(core, m');
  }

  /** The count and the target survive a write exactly when the first line has ink. */
  lemma MarkerRoundTripIff(p: string, t: string, n: nat)
    requires NEWLINE !in p && NEWLINE !in t && RETURN !in p && RETURN !in t && n >= 1
    ensures (Target(Render(p, t, n)) == t && Attempts(Render(p, t, n)) == n) <==> !Blank(p)
  {
    RenderIsPlain(p, t, n);
    UniversalOfPlain(Render(p, t, n));
    BodyOfRender(p, t, n);
    DecimalRoundTrip(n);
  }

  /** One more boot is counted from any marker with ink; an empty marker costs one boot more. */
  lemma NextCounts(text: string)
    ensures !Blank(Next(text))
    ensures Target(Next(text)) == Target(text)
    ensures Attempts(Next(text)) == if Blank(text) then 0 else Attempts(text) + 1
  {
    var n := Attempts(text) + 1;
    PlainLines(text);
    FirstOfInk(text);
    BodyOfRender(First(text), Target(text), n);
    DecimalRoundTrip(n);
    if Blank(Next(text)) {
      FirstOfInk(Next(text));
      assert false;
    }
  }

  lemma BlankFirst(text: string)
    requires Body(text) == [""]
    ensures First(text) == "" && Target(text) == "" && Attempts(text) == 0
  {
  }

  /** However a write of the next count is torn, the target read back is a prefix of the target. */
  lemma TornTarget(text: string, torn: string)
    requires torn <= Next(text)
    ensures Target(torn) <= Target(text)
  {
    hide Universal, Strip, Lines;
    FirstOfInk(text);
    PlainLines(text);
    assert forall c | c in torn :: c in Next(text);
    UniversalOfPlain(torn);
    if Blank(text) {
      BlankFirst(text);
      assert Decimal(1) == "1";
      assert Next(text) == "\n\n1\n";
      TornEmptyMarker(torn);
    } else {
      var digits := Decimal(Attempts(text) + 1);
      assert Next(text) == First(text) + "\n" + (Target(text) + "\n" + (digits + "\n"));
      TornInkedMarker(First(text), Target(text), digits + "\n", torn);
    }
  }

  lemma TornInkedMarker(p: string, t: string, rest: string, torn: string)
    requires p != "" && !IsSpace(p[0]) && NEWLINE !in p && NEWLINE !in t
    requires torn <= p + "\n" + (t + "\n" + rest) && Body(torn) == Parsed(torn)
    ensures Target(torn) <= t
  {
    hide Lines, RStrip;
    var next := p + "\n" + (t + "\n" + rest);
    LinesStep(p, t + "\n" + rest);
    LinesStep(t, rest);
    if torn != "" {
      assert torn[0] == next[0] == p[0];
    }
    assert LStrip(torn) == torn;
    var k := RStripSplits(torn);
    assert torn[..k] <= next;
    LinesOfPrefix(torn[..k], next);
  }

  lemma TornEmptyMarker(torn: string)
    requires torn <= "\n\n1\n" && Body(torn) == Parsed(torn)
    ensures Target(torn) == ""
  {
    var lo, hi := StripSplits(torn);
    var t := Strip(torn);
    forall i | 0 <= i < |t| ensures t[i] != NEWLINE {
      assert t[0] == torn[lo] && t[|t| - 1] == torn[hi - 1];
      assert lo == 2 && hi == 3;
    }
    FirstNewlineIs(t, |t|);
  }

  // Crash safety of the rollback

  predicate OldWhole(d: Disk, prior: string) {
    || (d.previous.Some? && d.previous.value.build == prior && d.previous.value.whole)
    || (d.current.Some? && d.current.value.build == prior && d.current.value.whole)
  }

  /** The version that authenticated last reads as the marker's target, now or after a torn count. */
  predicate Exposed(d: Disk) {
    && d.marker.Some? && StampVersion(d.stamp) != ""
    && StampVersion(d.stamp) <= Target(d.marker.value)
    && (Attempts(d.marker.value) < MAX_ATTEMPTS || StampVersion(d.stamp) == Target(d.marker.value))
  }

  /** What holds between any two steps of a rollback to `prior`; `venv`: one of the two trees had a venv. */
  ghost predicate Restoring(s: State, prior: string, venv: bool) {
    var d := s.disk;
    && !Exposed(d)
    && s.phase !in {DropMarker, DropPrevious}
    && (s.phase == Bump ==> d.marker.Some? && Attempts(d.marker.value) < MAX_ATTEMPTS)
    && (d.marker.None? ==> d.previous.None?)
    && (match d.previous
        case None =>
          d.current == Some(Tree(prior, true, venv)) && s.phase !in {Carry, Clear, Swap}
        case Some(prev) =>
          && prev.build == prior && prev.whole && s.phase !in {Unmark, Tidy}
          && (venv <==> prev.venv || (d.current.Some? && d.current.value.venv))
          && (s.phase in {Clear, Swap} ==> prev.venv == venv)
          && (s.phase == Swap ==> d.current.None?))
  }

  lemma RestoringIsKept(s: State, s': State, prior: string, venv: bool)
    requires Restoring(s, prior, venv) && GuardStep(s, s')
    ensures Restoring(s', prior, venv)
  {
    hide Strip, Lines, Render, IsDigits, ParseNat, StampVersion;
    if s.phase == Bump {
      var text := s.disk.marker.value;
      if s'.disk.marker != s.disk.marker {
        TornTarget(text, s'.disk.marker.value);
      }
    }
  }

  lemma {:induction false} RestoringThroughout(ss: seq<State>, prior: string, venv: bool, k: nat)
    requires GuardRun(ss) && Restoring(ss[0], prior, venv) && k < |ss|
    ensures Restoring(ss[k], prior, venv)
  {
    if k > 0 {
      RestoringThroughout(ss, prior, venv, k - 1);
      RestoringIsKept(ss[k - 1], ss[k], prior, venv);
    }
  }

  /**
   Whatever fails and wherever the process dies, over any number of boots: the old build stays whole in
   one of the two places, and the marker goes only once it is current, with the venv either tree had.
   */
  lemma RollbackIsCrashSafe(ss: seq<State>, prior: string, k: nat)
    requires GuardRun(ss) && k < |ss|
    requires ss[0].phase == Off && ss[0].disk.marker.Some? && !Exposed(ss[0].disk)
    requires ss[0].disk.previous.Some? && ss[0].disk.previous.value.build == prior
    requires ss[0].disk.previous.value.whole
    ensures OldWhole(ss[k].disk, prior)
    ensures ss[k].disk.marker.None? ==>
      ss[k].disk.current == Some(Tree(prior, true,
        ss[0].disk.previous.value.venv || (ss[0].disk.current.Some? && ss[0].disk.current.value.venv)))
  {
    var d := ss[0].disk;
    RestoringThroughout(ss, prior, d.previous.value.venv || (d.current.Some? && d.current.value.venv), k);
  }

  ghost predicate Survives(d: Disk, prior: string) {
    forall ss: seq<State>, k: nat | GuardRun(ss) && ss[0] == State(d, Off) && k < |ss| :: OldWhole(ss[k].disk, prior)
  }

  /** The guard drops the rollback copy of an update whose target the stamp names. */
  lemma StaleMarkerDropsCopy(d: Disk) returns (ss: seq<State>)
    requires d.marker.Some? && Authenticated(d)
    ensures GuardRun(ss) && ss[0] == State(d, Off) && ss[|ss| - 1] == State(d.(previous := None), Running)
  {
    ss := [State(d, Off), State(d, Guard), State(d, DropMarker), State(d, DropPrevious),
           State(d.(previous := None), Running)];
  }

  /** A write of the next count torn inside the target names what was written of it. */
  lemma TornInsideTarget(text: string, v: string)
    requires v != "" && v <= Target(text) && Tight(v)
    ensures First(text) + "\n" + v <= Next(text) && Target(First(text) + "\n" + v) == v
  {
    var torn := First(text) + "\n" + v;
    FirstOfInk(text);
    PlainLines(text);
    hide Universal;
    assert torn <= Next(text);
    assert forall c | c in torn :: c in Next(text);
    assert forall c | c in v :: c in Target(text);
    UniversalOfPlain(torn);
    StripOfTight(torn);
    hide Strip;
    LinesStep(First(text), v);
    LinesStep(v, "");
  }

  /** An exposed install has a run that loses the old build: the count is torn inside the target. */
  lemma ExposedLosesOld(d: Disk) returns (ss: seq<State>)
    requires Exposed(d)
    ensures GuardRun(ss) && ss[0] == State(d, Off)
    ensures ss[|ss| - 1].disk.previous == None && ss[|ss| - 1].disk.current == d.current
  {
    var text, v := d.marker.value, StampVersion(d.stamp);
    if v == Target(text) {
      ss := StaleMarkerDropsCopy(d);
    } else {
      var torn := First(text) + "\n" + v;
      assert Tight(v) by { var lo, hi := StripSplits(FirstBreakless(d.stamp.value)); }
      TornInsideTarget(text, v);
      hide Strip, Lines, Universal, Next, Target;
      var d' := d.(marker := Some(torn));
      var rest := StaleMarkerDropsCopy(d');
      ss := [State(d, Off), State(d, Guard), State(d, Bump)] + rest;
      assert Death(State(d, Bump), rest[0]);
      forall i | 0 <= i < |ss| - 1 ensures GuardStep(ss[i], ss[i + 1]) {
        if i >= 3 { assert ss[i] == rest[i - 3] && ss[i + 1] == rest[i - 2]; }
      }
    }
  }

  /** The old build survives every run without an authentication exactly when the install is not exposed. */
  lemma OldSurvivesIff(d: Disk, prior: string)
    requires d.marker.Some? && d.previous.Some? && d.previous.value.build == prior && d.previous.value.whole
    requires d.current.Some? ==> d.current.value.build != prior || !d.current.value.whole
    ensures Survives(d, prior) <==> !Exposed(d)
  {
    if Exposed(d) {
      var ss := ExposedLosesOld(d);
      assert !OldWhole(ss[|ss| - 1].disk, prior);
    } else {
      forall ss: seq<State>, k: nat | GuardRun(ss) && ss[0] == State(d, Off) && k < |ss|
        ensures OldWhole(ss[k].disk, prior)
      {
        RollbackIsCrashSafe(ss, prior, k);
      }
    }
  }

  /** With no rollback copy, no step of the guard changes a tree it could boot from. */
  lemma {:induction false} NoCopyNoChange(ss: seq<State>, k: nat)
    requires GuardRun(ss) && k < |ss| && ss[0].phase == Off && ss[0].disk.previous.None?
    ensures ss[k].disk.current == ss[0].disk.current && ss[k].disk.previous.None?
    ensures ss[k].phase !in {Carry, Clear, Swap, Unmark, Tidy}
  {
    if k > 0 {
      NoCopyNoChange(ss, k - 1);
      assert GuardStep(ss[k - 1], ss[k]);
    }
  }

  /** One boot in which the guard returns: the process does not die in it. */
  ghost predicate ReturnedBoot(d: Disk, ss: seq<State>) {
    && GuardRun(ss) && ss[0] == State(d, Guard) && ss[|ss| - 1].phase == Running
    && forall i | 0 <= i < |ss| :: ss[i].phase != Off
  }

  /** Such a boot goes operation by operation, ends where it first runs, and has not swapped. */
  lemma BootSteps(d: Disk, ss: seq<State>)
    requires ReturnedBoot(d, ss)
    ensures forall i | 0 <= i < |ss| - 1 :: Operation(ss[i], ss[i + 1]) && ss[i].phase != Running
    ensures forall i | 0 <= i < |ss| :: ss[i].phase != Tidy && ss[i].phase != Unmark
  {
    forall i | 0 <= i < |ss| - 1 ensures Operation(ss[i], ss[i + 1]) && ss[i].phase != Running {
      assert GuardStep(ss[i], ss[i + 1]) && ss[i + 1].phase != Off;
    }
    forall i | 0 <= i < |ss| ensures ss[i].phase != Tidy {
      if i < |ss| - 1 { assert Operation(ss[i], ss[i + 1]); }
    }
    forall i | 0 <= i < |ss| ensures ss[i].phase != Unmark {
      if i < |ss| - 1 { assert Operation(ss[i], ss[i + 1]); }
    }
  }

  /** A rollback that returned without its swap: the tree current before is untouched only where it failed first. */
  predicate Untouched(d: Disk, before: State, after: Disk) {
    || d.current.None?
    || before.phase == Carry
    || (before.phase == Clear && !NeedsVenv(d) && after == before.disk)
  }

  /**
   Every rollback that returns keeps the marker, and leaves the current tree as it was exactly when it failed carrying
   the venv, or removing a tree whose venv it had not carried and of which nothing was removed, or there was none.
   */
  lemma FailedRollback(d: Disk, ss: seq<State>)
    requires Decide(d) == Carry && ReturnedBoot(d, ss)
    ensures |ss| >= 3 && ss[|ss| - 2].phase in {Carry, Clear, Swap}
    ensures var after := ss[|ss| - 1].disk;
      after.marker == d.marker && (after.current == d.current <==> Untouched(d, ss[|ss| - 2], after))
  {
    hide ReturnedBoot, Decide;
    BootBegins(d, ss);
    BootSteps(d, ss);
    assert Operation(ss[0], ss[1]) && ss[1] == State(d, Carry);
    assert Operation(ss[1], ss[2]);
    if ss[2].phase == Clear {
      assert Operation(ss[2], ss[3]);
      if ss[3].phase == Swap {
        assert Operation(ss[3], ss[4]);
      }
    }
  }

  lemma BootBegins(d: Disk, ss: seq<State>)
    requires ReturnedBoot(d, ss)
    ensures |ss| > 0 && ss[0] == State(d, Guard) && ss[|ss| - 1].phase == Running
  {
  }

  /** A rollback that fails at the swap has taken the current tree away. */
  lemma FailedSwap(d: Disk) returns (ss: seq<State>)
    requires Decide(d) == Carry
    ensures ReturnedBoot(d, ss) && ss[|ss| - 1].disk.current == None
  {
    var c := if NeedsVenv(d) then Carried(d) else d;
    var e := c.(current := None);
    ss := [State(d, Guard), State(d, Carry), State(c, Clear), State(e, Swap), State(e, Running)];
    assert Operation(ss[1], ss[2]) && Operation(ss[2], ss[3]) && Operation(ss[3], ss[4]);
  }

  /** A failing rollback is sure to leave the current tree as it was exactly when there is none. */
  lemma CurrentIsKeptIff(d: Disk)
    requires Decide(d) == Carry
    ensures (forall ss: seq<State> | ReturnedBoot(d, ss) :: ss[|ss| - 1].disk.current == d.current) <==> d.current.None?
  {
    hide Decide, ReturnedBoot, Operation;
    if d.current.None? {
      forall ss: seq<State> | ReturnedBoot(d, ss) ensures |ss| > 0 && ss[|ss| - 1].disk.current == d.current {
        BootBegins(d, ss);
        FailedRollback(d, ss);
      }
    } else {
      var ss := FailedSwap(d);
      BootBegins(d, ss);
      assert ss[|ss| - 1].disk.current != d.current;
    }
  }

  // Convergence

  /** The disk after a boot whose file operations all succeed. */
  function BootOk(d: Disk): Disk {
    match Decide(d)
    case DropMarker => d.(marker := None, previous := None)
    case Bump => d.(marker := Some(Next(d.marker.value)))
    case Carry =>
      d.(marker := None, previous := None, staged := None, current := Some(Restored(d)))
    case _ => d
  }

  /** The previous build with any venv the two trees had. */
  function Restored(d: Disk): Tree
    requires d.previous.Some?
  {
    d.previous.value.(venv := d.previous.value.venv || (d.current.Some? && d.current.value.venv))
  }

  function Boots(d: Disk, k: nat): Disk
    decreases k
  {
    if k == 0 then d else Boots(BootOk(d), k - 1)
  }

  /** How many boots a marker allows: the third rolls back, the fourth when the marker was emptied. */
  function BootsToRollback(text: string): nat {
    if Attempts(text) >= MAX_ATTEMPTS then 1
    else if Blank(text) then 4
    else 3 - Attempts(text)
  }

  /** An update that never authenticates is rolled back at exactly that boot, and no tree changes before it. */
  lemma {:induction false} RollbackConverges(d: Disk)
    requires d.marker.Some? && d.previous.Some?
    requires Target(d.marker.value) == "" || StampVersion(d.stamp) != Target(d.marker.value)
    ensures var n := BootsToRollback(d.marker.value);
      && Boots(d, n) == d.(marker := None, previous := None, staged := None, current := Some(Restored(d)))
      && forall k: nat | k < n :: Boots(d, k) == d.(marker := Boots(d, k).marker) && Boots(d, k).marker.Some?
    decreases BootsToRollback(d.marker.value)
  {
    hide Strip, Lines, Render, IsDigits, ParseNat, StampVersion, Target, Attempts, Next, Blank;
    var n := BootsToRollback(d.marker.value);
    if Attempts(d.marker.value) >= MAX_ATTEMPTS {
      assert Boots(d, 1) == Boots(BootOk(d), 0);
    } else {
      NextCounts(d.marker.value);
      RollbackConverges(BootOk(d));
      forall k: nat | k < n
        ensures Boots(d, k) == d.(marker := Boots(d, k).marker) && Boots(d, k).marker.Some?
      {
        if k > 0 { assert Boots(d, k) == Boots(BootOk(d), k - 1); }
      }
    }
  }

  // Only an update that authenticated gives up its rollback copy

  /** The stamp names its first line, a written marker its second as target: nothing else decides. */
  lemma StampNamesTargetIff(d: Disk, p: string, t: string, n: nat, v: string)
    requires NEWLINE !in p && NEWLINE !in t && RETURN !in p && RETURN !in t && n >= 1 && !Blank(p)
    requires Tight(v) && v != "" && forall i | 0 <= i < |v| :: !IsLineBreak(v[i])
    requires d.marker == Some(Render(p, t, n)) && d.stamp == Some(v + "\n")
    ensures Decide(d) == DropMarker <==> v == t
  {
    MarkerRoundTripIff(p, t, n);
    StampedVersion(v, v + "\n");
    StripOfTight(v);
  }

  /** The marker goes, or the copy is not as good as it was. */
  predicate Loses(d: Disk, d': Disk) {
    || (d.marker.Some? && d'.marker.None?)
    || (d.previous.Some? && !AsGood(d.previous.value, d'.previous))
  }

  predicate AsGood(was: Tree, now: Option<Tree>) {
    now.Some? && now.value.build == was.build && (was.whole ==> now.value.whole) && (was.venv ==> now.value.venv)
  }

  /** Where a boot that began from `d` has come. */
  predicate InBoot(d: Disk, s: State) {
    match s.phase
    case Guard => s.disk == d
    case DropMarker => d.marker.Some? && StampVersion(d.stamp) == Target(d.marker.value) != ""
    case DropPrevious => d.marker.Some? && StampVersion(d.stamp) == Target(d.marker.value) != ""
    case Carry => s.disk == d && d.previous.Some?
    case Clear => d.previous.Some? && s.disk == if NeedsVenv(d) then Carried(d) else d
    case Swap => d.previous.Some? && s.disk.previous == Some(Restored(d))
    case Unmark => d.previous.Some? && s.disk.current == Some(Restored(d))
    case Tidy => d.previous.Some? && s.disk.current == Some(Restored(d))
    case _ => true
  }

  /** The boot a step belongs to: j is where it began. */
  predicate SameBoot(ss: seq<State>, j: nat, k: nat) {
    && j <= k < |ss| && ss[j].phase == Guard
    && forall i | j <= i <= k :: ss[i].phase != Off
  }

  lemma BootStep(d: Disk, s: State, s': State)
    requires InBoot(d, s) && s.phase != Off && GuardStep(s, s')
    ensures s'.phase == Off || InBoot(d, s')
    ensures Loses(s.disk, s'.disk) ==>
      || (d.marker.Some? && StampVersion(d.stamp) == Target(d.marker.value) != "")
      || (d.previous.Some? && s'.disk.current == Some(Restored(d)))
  {
    hide Strip, Lines, Render, IsDigits, ParseNat, StampVersion, Target, Attempts, Next, Blank;
  }

  lemma {:induction false} BootOf(ss: seq<State>, k: nat) returns (j: nat)
    requires GuardRun(ss) && k < |ss| && ss[0].phase == Off && ss[k].phase != Off
    ensures SameBoot(ss, j, k) && InBoot(ss[j].disk, ss[k])
  {
    hide InBoot, Operation;
    assert GuardStep(ss[k - 1], ss[k]);
    if ss[k - 1].phase == Off {
      j := k;
      BootBeginsAt(ss[k - 1], ss[k]);
    } else {
      j := BootOf(ss, k - 1);
      BootStep(ss[j].disk, ss[k - 1], ss[k]);
    }
  }

  lemma BootBeginsAt(s: State, s': State)
    requires s.phase == Off && GuardStep(s, s')
    ensures s'.phase == Guard && s'.disk == s.disk && InBoot(s'.disk, s')
  {
  }

  lemma OffLosesNothing(s: State, s': State)
    requires GuardStep(s, s')
    ensures s.phase == Off ==> !Loses(s.disk, s'.disk)
  {
  }

  /**
   Over every guard run: the marker or the copy is lost only in a boot that read the marker's own target as the stamp's
   first line, or that has put the copy in place, with whatever venv there was.
   */
  lemma CopyGoesIfNamedOrRestored(ss: seq<State>, k: nat) returns (j: nat)
    requires GuardRun(ss) && k < |ss| - 1 && ss[0].phase == Off && Loses(ss[k].disk, ss[k + 1].disk)
    ensures SameBoot(ss, j, k)
    ensures var d := ss[j].disk;
      || (d.marker.Some? && StampVersion(d.stamp) == Target(d.marker.value) != "")
      || (d.previous.Some? && ss[k + 1].disk.current == Some(Restored(d)))
  {
    hide InBoot, Operation;
    assert GuardStep(ss[k], ss[k + 1]);
    OffLosesNothing(ss[k], ss[k + 1]);
    j := BootOf(ss, k);
    BootStep(ss[j].disk, ss[k], ss[k + 1]);
  }

  /** What an authenticated build keeps, however its own marker lingers. */
  ghost predicate Settled(s: State, current: Tree) {
    && current.build != "" && StampVersion(s.disk.stamp) == current.build
    && s.disk.current == Some(current)
    && (s.disk.marker.Some? ==> Target(s.disk.marker.value) == current.build)
    && s.phase in {Off, Guard, DropMarker, DropPrevious, Running}
  }

  lemma {:induction false} StampedVersion(v: string, text: string)
    requires v + "\n" <= text && forall i | 0 <= i < |v| :: !IsLineBreak(v[i])
    ensures FirstBreakless(text) == v
  {
    if v != "" {
      assert v[1..] + "\n" <= text[1..] by {
        assert text[1..][..|v|] == (v + "\n")[1..] == v[1..] + "\n";
      }
      StampedVersion(v[1..], text[1..]);
      assert [v[0]] + v[1..] == v;
    } else {
      assert text[0] == NEWLINE;
    }
  }

  lemma {:induction false} BreaklessHasNoBreak(s: string)
    ensures forall i | 0 <= i < |FirstBreakless(s)| :: !IsLineBreak(FirstBreakless(s)[i])
  {
    if s != "" && !IsLineBreak(s[0]) {
      BreaklessHasNoBreak(s[1..]);
    }
  }

  lemma SettledIsKept(s: State, s': State, current: Tree)
    requires Settled(s, current) && (GuardStep(s, s') || Finalizes(s, s'))
    ensures Settled(s', current)
  {
    hide Lines, ParseNat, IsDigits, Attempts, Next;
    if Finalizes(s, s') && s'.disk.stamp != s.disk.stamp {
      var first := FirstBreakless(s.disk.stamp.value);
      var lo, hi := StripSplits(first);
      BreaklessHasNoBreak(first);
      BreaklessHasNoBreak(s.disk.stamp.value);
      StampedVersion(current.build, s'.disk.stamp.value);
      StripOfTight(current.build);
    }
  }

  /** Once the stamp names the marker's target, no boot rolls the running build back, even if the marker never goes. */
  lemma {:induction false} AuthenticatedBuildStays(ss: seq<State>, current: Tree, k: nat)
    requires Run(ss) && k < |ss| && Settled(ss[0], current)
    ensures ss[k].disk.current == Some(current) && Settled(ss[k], current)
  {
    if k > 0 {
      AuthenticatedBuildStays(ss, current, k - 1);
      SettledIsKept(ss[k - 1], ss[k], current);
    }
  }

  /** What a boot without a failure leaves, by what the two files say. */
  predicate AsRead(d: Disk, d': Disk) {
    d.marker.Some? ==>
      var text := d.marker.value;
      if Target(text) != "" && StampVersion(d.stamp) == Target(text) then d' == d.(marker := None, previous := None)
      else if Attempts(text) < MAX_ATTEMPTS then
        && d' == d.(marker := d'.marker) && d'.marker.Some? && Target(d'.marker.value) == Target(text)
        && Attempts(d'.marker.value) == if Blank(text) then 0 else Attempts(text) + 1
      else if d.previous.None? then d' == d
      else d' == d.(marker := None, previous := None, staged := None, current := Some(Restored(d)))
  }

  // The code

  datatype Exit = Returned | Relaunched | Raised

  /** The satellite's directory, with the history of every operation done to it. */
  class Installation {
    var disk: Disk
    ghost var trace: seq<State>
    ghost var failed: bool

    ghost predicate Valid()
      reads this
    {
      GuardRun(trace) && trace[|trace| - 1].disk == disk
    }

    ghost function Phase(): Phase
      requires Valid()
      reads this
    {
      trace[|trace| - 1].phase
    }

    /** Records that the directory became `d` and the guard moves on to `p`. */
    method Do(d: Disk, ghost p: Phase)
      requires Valid() && GuardStep(State(disk, Phase()), State(d, p))
      modifies this`disk, this`trace
      ensures Valid() && disk == d && Phase() == p && trace == old(trace) + [State(d, p)]
    {
      disk := d;
      trace := trace + [State(d, p)];
    }

    /** An operation the host may refuse. */
    method Attempt() returns (ok: bool)
      modifies this`failed
      ensures failed == (old(failed) || !ok)
    {
      ok := *;
      failed := failed || !ok;
    }

    /** rmtree: all of it on success, any part of it on failure. */
    method Remove(tree: Option<Tree>) returns (ok: bool, left: Option<Tree>)
      modifies this`failed
      ensures failed == (old(failed) || !ok)
      ensures if ok then left == None else Removing(tree, left)
    {
      ok := Attempt();
      left := None;
      if !ok && tree.Some? {
        var whole: bool, venv: bool := *, *;
        left := Some(tree.value.(whole := whole && tree.value.whole, venv := venv && tree.value.venv));
      }
    }

    /** The update authenticated earlier: the marker and the rollback copy are leftovers. */
    method DropStale()
      requires Valid() && Phase() == DropMarker
      modifies this
      ensures Valid() && old(trace) <= trace && Phase() == Running && (old(failed) ==> failed)
      ensures !failed ==> disk == old(disk).(marker := None, previous := None)
    {
      var unlinked := Attempt();
      Do(if unlinked then disk.(marker := None) else disk, DropPrevious);
      var left := disk.previous;
      if disk.previous.Some? {
        var ok;
        ok, left := Remove(disk.previous);
      }
      Do(disk.(previous := left), Running);
    }

    /** Counts this boot; a refused write raises out of the guard, its text torn at any point. */
    method CountBoot(previous: string, target: string, attempts: nat) returns (exit: Exit)
      requires Valid() && Phase() == Bump && disk.marker.Some?
      requires Render(previous, target, attempts + 1) == Next(disk.marker.value)
      modifies this
      ensures Valid() && old(trace) <= trace && (old(failed) ==> failed)
      ensures (exit == Returned && Phase() == Running) || (exit == Raised && Phase() == Off && failed)
      ensures disk == old(disk).(marker := disk.marker) && disk.marker.Some?
      ensures !failed ==> disk == old(disk).(marker := Some(Next(old(disk).marker.value)))
    {
      var next := Render(previous, target, attempts + 1);
      var written := Attempt();
      if written {
        Do(disk.(marker := Some(next)), Running);
        return Returned;
      }
      var cut :| 0 <= cut <= |next|;
      Do(disk.(marker := Some(next[..cut])), Off);
      return Raised;
    }

    /** Carries the only venv back into the previous build; a refusal changes nothing. */
    method CarryVenv() returns (ok: bool)
      requires Valid() && Phase() == Carry && disk.previous.Some?
      modifies this
      ensures Valid() && old(trace) <= trace && failed == (old(failed) || !ok)
      ensures if ok then Phase() == Clear && disk == (if NeedsVenv(old(disk)) then Carried(old(disk)) else old(disk))
              else Phase() == Running && disk == old(disk)
    {
      ok := true;
      if disk.current.Some? && disk.current.value.venv && !disk.previous.value.venv {
        ok := Attempt();
        Do(if ok then Carried(disk) else disk, if ok then Clear else Running);
      } else {
        Do(disk, Clear);
      }
    }

    /** Removes the broken build and moves the previous one onto its name. */
    method SwapIn() returns (ok: bool)
      requires Valid() && Phase() == Clear && disk.previous.Some?
      modifies this
      ensures Valid() && old(trace) <= trace && failed == (old(failed) || !ok)
      ensures disk.marker == old(disk.marker) && disk.staged == old(disk.staged) && disk.stamp == old(disk.stamp)
      ensures if ok then Phase() == Unmark && disk.current == old(disk.previous) && disk.previous == None
              else Phase() == Running && disk.previous == old(disk.previous)
    {
      ok := true;
      if disk.current.Some? {
        var left;
        ok, left := Remove(disk.current);
        if !ok {
          Do(disk.(current := left), Running);
          return;
        }
      }
      Do(disk.(current := None), Swap);
      ok := Attempt();
      Do(if ok then disk.(current := disk.previous, previous := None) else disk, if ok then Unmark else Running);
    }

    /** Only now the marker goes, with a leftover staged build. */
    method FinishRollback()
      requires Valid() && Phase() == Unmark
      modifies this
      ensures Valid() && old(trace) <= trace && Phase() == Off && (old(failed) ==> failed)
      ensures disk.current == old(disk.current) && disk.previous == old(disk.previous) && disk.stamp == old(disk.stamp)
      ensures !failed ==> disk.marker == None && disk.staged == None
    {
      var unlinked := Attempt();
      Do(if unlinked then disk.(marker := None) else disk, Tidy);
      var left := disk.staged;
      if disk.staged.Some? {
        var ok;
        ok, left := Remove(disk.staged);
      }
      Do(disk.(staged := left), Off);
    }

    /** The venv first, then the broken tree, then the swap; the marker only after all three. */
    method RollBack() returns (exit: Exit)
      requires Valid() && Phase() == Carry && disk.previous.Some?
      modifies this
      ensures Valid() && old(trace) <= trace && (old(failed) ==> failed)
      ensures
        || (exit == Returned && Phase() == Running && failed && disk.marker == old(disk.marker)
            && AsGood(old(disk).previous.value, disk.previous))
        || (exit == Relaunched && Phase() == Off && disk.previous == None && disk.current == Some(Restored(old(disk))))
      ensures !failed ==> disk == old(disk).(marker := None, previous := None, staged := None,
                                             current := Some(Restored(old(disk))))
    {
      exit := Returned;
      var carried := CarryVenv();
      if carried {
        var swapped := SwapIn();
        if swapped {
          FinishRollback();
          exit := Relaunched;
        }
      }
    }

    /**
     The boot guard: every run of it is a run of the steps above, one that meets no failure ends as
     BootOk says, and a rollback that does not end in the restored build returns with the marker as it was.
     */
    method CheckPostUpdateState() returns (exit: Exit)
      requires Valid() && Phase() == Guard && !failed
      modifies this
      ensures Valid() && old(trace) <= trace
      ensures Phase() == if exit == Returned then Running else Off
      ensures !failed ==> disk == BootOk(old(disk)) && (exit == Relaunched <==> Decide(old(disk)) == Carry)
      ensures Decide(old(disk)) == Carry ==>
        if exit == Relaunched then disk.current == Some(Restored(old(disk))) else disk.marker == old(disk.marker)
      ensures !failed ==> AsRead(old(disk), disk)
      ensures Loses(old(disk), disk) ==> var d := old(disk);
        || (d.marker.Some? && StampVersion(d.stamp) == Target(d.marker.value) != "")
        || (d.previous.Some? && disk.current == Some(Restored(d)))
    {
      hide Strip, Lines, ParseNat, StampVersion, GuardRun, Blank;
      if disk.marker.None? {
        Do(disk, Running);
        return Returned;
      }
      NextCounts(disk.marker.value);
      var body := Body(disk.marker.value);
      var target := if |body| > 1 then body[1] else "";
      var attempts := if |body| > 2 && IsDigits(body[2]) then ParseNat(body[2]) else 0;
      var lastOk := StampVersion(disk.stamp);
      Do(disk, Decide(disk));

      if target != "" && lastOk == target {
        DropStale();
        return Returned;
      }
      if attempts >= MAX_ATTEMPTS {
        if disk.previous.None? {
          return Returned;
        }
        exit := RollBack();
      } else {
        exit := CountBoot(body[0], target, attempts);
      }
    }
  }
}
