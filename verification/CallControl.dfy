/**
 The call tools: one pending action per call, and a transfer whose outcome several tasks race to record.
 A step runs from one await to the next.
 */
module CallControl {
  import opened Wrappers
  import opened Text

  datatype Action = NoAction | End | Transfer | Ask

  datatype Target = Target(name: string, number: string)

  /** A route's line: its configured targets, whether it has a transfer handle, and str.casefold. */
  datatype Line = Line(targets: seq<Target>, handle: bool, fold: string -> string)

  function Digits(s: string): string {
    if s == "" then "" else (if IsDigit(s[0]) then [s[0]] else "") + Digits(s[1..])
  }

  /** Whether the agent's word names the target, by its label or by its digits. */
  predicate Names(t: Target, want: string, fold: string -> string) {
    || (Strip(t.name) != "" && fold(Strip(t.name)) == fold(want))
    || (Strip(t.number) != "" && Digits(want) != "" && Digits(Strip(t.number)) == Digits(want))
  }

  /** The first configured target the word names. */
  function TargetFor(targets: seq<Target>, wanted: string, fold: string -> string): Option<Target> {
    var want := Strip(wanted);
    if want == "" || targets == [] then None
    else if Names(targets[0], want, fold) then Some(targets[0])
    else TargetFor(targets[1..], wanted, fold)
  }

  /** What a transfer to the target is called. */
  function LabelOf(t: Target): string { if t.name != "" then t.name else t.number }

  /** A word never passes through: the target is the first configured one it names, with something to call it. */
  lemma {:induction false} TargetIsConfigured(targets: seq<Target>, wanted: string, fold: string -> string)
    ensures var r := TargetFor(targets, wanted, fold);
      && (r.None? <==> Strip(wanted) == "" || forall t | t in targets :: !Names(t, Strip(wanted), fold))
      && (r.Some? ==> r.value in targets && Names(r.value, Strip(wanted), fold) && LabelOf(r.value) != "")
  {
    if targets != [] && Strip(wanted) != "" {
      assert targets == [targets[0]] + targets[1..];
      if Names(targets[0], Strip(wanted), fold) {
        StripKeepsNothing(targets[0].name);
        StripKeepsNothing(targets[0].number);
      } else {
        TargetIsConfigured(targets[1..], wanted, fold);
      }
    }
  }

  lemma StripKeepsNothing(s: string)
    ensures Strip(s) != "" ==> s != ""
  {
  }

  lemma {:induction false} DigitsConcat(a: string, b: string)
    ensures Digits(a + b) == Digits(a) + Digits(b)
  {
    if a == "" {
      assert a + b == b;
    } else {
      assert (a + b)[1..] == a[1..] + b;
      DigitsConcat(a[1..], b);
    }
  }

  /** Of a number only its digits count, in order. */
  lemma DigitsCount(before: string, c: char, after: string)
    ensures Digits(before + [c] + after) == Digits(before) + (if '0' <= c <= '9' then [c] else "") + Digits(after)
  {
    OneDigit(c);
    hide Digits;
    DigitsConcat(before + [c], after);
    DigitsConcat(before, [c]);
  }

  lemma OneDigit(c: char)
    ensures Digits([c]) == if '0' <= c <= '9' then [c] else ""
  {
    assert Digits([c][1..]) == "";
  }

  /**
   What a word reaches: the first target it gives the label of, whatever its case and margins, or the digits of, in
   whatever writing; a word without a label of the route and without such digits reaches none.
   */
  lemma {:induction false} WordReaches(targets: seq<Target>, i: nat, wanted: string, fold: string -> string)
    requires i < |targets| && Strip(wanted) != ""
    requires forall j | 0 <= j < i ::
      && (Strip(targets[j].name) == "" || fold(Strip(targets[j].name)) != fold(Strip(wanted)))
      && (Digits(Strip(targets[j].number)) == "" || Digits(Strip(targets[j].number)) != Digits(Strip(wanted)))
    ensures TargetFor(targets, wanted, fold) == Some(targets[i]) <==>
      || TargetFor(targets[i + 1..], wanted, fold) == Some(targets[i])
      || (Strip(targets[i].name) != "" && fold(Strip(targets[i].name)) == fold(Strip(wanted)))
      || (Digits(Strip(targets[i].number)) != "" && Digits(Strip(targets[i].number)) == Digits(Strip(wanted)))
  {
    hide Strip, Digits;
    NoDigits();
    if i > 0 {
      assert targets[1..][i - 1..] == targets[i..] && targets[1..][i..] == targets[i + 1..];
      forall j | 0 <= j < i - 1 ensures targets[1..][j] == targets[j + 1] {}
      WordReaches(targets[1..], i - 1, wanted, fold);
    }
  }

  lemma NoDigits()
    ensures Digits("") == ""
  {
  }

  method TransferTargetFor(targets: seq<Target>, wanted: string, fold: string -> string) returns (r: Option<Target>)
    ensures r == TargetFor(targets, wanted, fold)
  {
    var want := Strip(wanted);
    if want == "" {
      return None;
    }
    for i := 0 to |targets|
      invariant TargetFor(targets, wanted, fold) == TargetFor(targets[i..], wanted, fold)
    {
      assert targets[i..][1..] == targets[i + 1..];
      var t := targets[i];
      if Strip(t.name) != "" && fold(Strip(t.name)) == fold(want) {
        return Some(t);
      }
      if Strip(t.number) != "" && Digits(want) != "" && Digits(Strip(t.number)) == Digits(want) {
        return Some(t);
      }
    }
    return None;
  }

  // The pending action and the transfer in flight

  datatype Request = InFlight | Succeeded | Refused | Dropped

  const COMPLETED := "completed"
  const TRANSFERRED := "transferred"
  const HANGUP := "hangup"
  const ERROR := "error"

  datatype State = State(
    action: Action, target: Option<Target>,
    complete: bool, running: bool, lineClosed: bool,
    outcome: string,
    movedTo: string,               // _transferred_to
    goal: string, previous: string, settled: bool,
    requests: seq<Request>,        // every transfer request sent; the last is the current one
    waiting: multiset<nat>,        // tasks parked in _settle_transfer, by the request they await
    records: map<nat, nat>,        // outcomes recorded, per request
    overlapped: bool,              // an attempt began before every task settling the last one was done
    overwritten: bool)             // the proxy was lost during an attempt

  const ANSWERED :=
    State(NoAction, None, false, true, false, COMPLETED, "", "", "", false, [], multiset{}, map[], false, false)

  datatype Event =
    | Tool(action: Option<Action>, stale: bool, wanted: string, unavailable: bool, askable: bool)
    | Clear(keepTransfer: bool)
    | MarkComplete
    | BeginTransfer(target: Target)
    | RequestEnds(request: nat, ok: bool)
    | SettleBegins
    | SettleWakes(request: nat, timedOut: bool, connClosed: bool)
    | WaiterCancelled(request: nat)
    | RemoteHangup
    | ProxyLost

  predicate EndPending(s: State) { s.action in {End, Transfer} }

  /** A tool's action: what is pending wins over it, a question gives way to an end or a transfer. */
  function OnTool(line: Line, s: State, e: Event): (r: (State, bool))
    requires e.Tool?
  {
    if e.stale || e.action.None? then (s, false)
    else match e.action.value
      case End =>
        if EndPending(s) then (s, false) else (s.(action := End), true)
      case Transfer =>
        var target := TargetFor(line.targets, e.wanted, line.fold);
        if EndPending(s) || target.None? || !line.handle || e.unavailable then (s, false)
        else (s.(action := Transfer, target := target), true)
      case Ask =>
        if !e.askable || s.action != NoAction then (s, false) else (s.(action := Ask), true)
      case NoAction => (s, false)
  }

  /**
   A tool is taken exactly when its turn is current, nothing stronger is pending (an end or a transfer bars both, and
   anything bars a question), and what it asks for can be done; refused, it leaves no trace.
   */
  lemma ToolIsTakenIff(line: Line, s: State, e: Event)
    requires e.Tool?
    ensures var (s', ok) := OnTool(line, s, e);
      && (ok <==>
            && !e.stale && e.action.Some?
            && match e.action.value
               case End => (s.action.NoAction? || s.action.Ask?)
               case Transfer =>
                 (s.action.NoAction? || s.action.Ask?) && line.handle && !e.unavailable
                 && TargetFor(line.targets, e.wanted, line.fold).Some?
               case Ask => s.action == NoAction && e.askable
               case NoAction => false)
      && s' == (if !ok then s
                else s.(action := e.action.value,
                        target := if e.action.value == Transfer then TargetFor(line.targets, e.wanted, line.fold)
                                  else s.target))
  {
    hide TargetFor, Names, Strip;
  }

  function Cleared(s: State): State {
    s.(action := NoAction, target := None)
  }

  function OnClear(s: State, keepTransfer: bool): State {
    if s.action == NoAction || (keepTransfer && s.action == Transfer) then s else Cleared(s)
  }

  predicate Open(s: State) { s.requests != [] && !s.settled }

  function FailTransfer(s: State): State {
    Cleared(s.(outcome := s.previous, complete := false))
  }

  /** An attempt set up: the outcome reads transferred before the media leg can close. */
  function Opened(s: State, t: Target): State {
    s.(goal := LabelOf(t), previous := s.outcome, settled := false, outcome := TRANSFERRED, overwritten := false,
       overlapped := Overlaps(s))
  }

  /** An attempt begun now overlaps the last one. */
  predicate Overlaps(s: State) {
    s.overlapped || Open(s) || s.movedTo != "" || s.waiting != multiset{}
  }

  function Begin(line: Line, s: State, t: Target): State {
    if s.lineClosed then s.(running := false)
    else
      var b := Opened(s, t);
      if line.handle then b.(requests := s.requests + [InFlight]) else FailTransfer(b)
  }

  /** What a request's end means for the call. */
  function Resolve(s: State, r: Request, connClosed: bool): State {
    if r == Succeeded || (r == InFlight && (connClosed || s.lineClosed)) then s.(movedTo := s.goal, running := false)
    else if r != InFlight && s.lineClosed then s.(outcome := s.previous, running := false)
    else FailTransfer(s)
  }

  /** The one task that finds the outcome unrecorded records it, and drops a request still unanswered. */
  function Record(s: State, k: nat, connClosed: bool): State
    requires k < |s.requests|
  {
    var count := if k in s.records then s.records[k] else 0;
    var r := s.(settled := true, records := s.records[k := count + 1],
                requests := if s.requests[k] == InFlight then s.requests[k := Dropped] else s.requests);
    Resolve(r, s.requests[k], connClosed)
  }

  function Step(line: Line, s: State, e: Event): State {
    match e
    case Tool(_, _, _, _, _) => OnTool(line, s, e).0
    case Clear(keep) =>
      // every clear that keeps no transfer follows a look that found none pending
      if !keep && s.target.Some? then s else OnClear(s, keep)
    case MarkComplete => s.(complete := true)
    case BeginTransfer(t) => if s.target == Some(t) then Begin(line, s, t) else s
    case RequestEnds(k, ok) =>
      if k < |s.requests| && s.requests[k] == InFlight
      then s.(requests := s.requests[k := if ok then Succeeded else Refused])
      else s
    case SettleBegins =>
      if Open(s) then s.(waiting := s.waiting + multiset{|s.requests| - 1}) else s
    case SettleWakes(k, timedOut, connClosed) =>
      if k !in s.waiting || k >= |s.requests| || (s.requests[k] == InFlight && !timedOut) then s
      else
        var w := s.(waiting := s.waiting - multiset{k});
        if s.settled then w else Record(w, k, connClosed)
    case WaiterCancelled(k) => s.(waiting := s.waiting - multiset{k})
    case RemoteHangup =>
      s.(lineClosed := true,
         outcome := if s.outcome == COMPLETED && !s.complete && !EndPending(s) then HANGUP else s.outcome)
    case ProxyLost =>
      if s.running then s.(outcome := ERROR, overwritten := s.overwritten || Open(s)) else s
  }

  function Exec(line: Line, es: seq<Event>): State {
    if es == [] then ANSWERED else Step(line, Exec(line, es[..|es| - 1]), es[|es| - 1])
  }

  /** A target stands exactly beside a pending transfer, and it is one of the line's. */
  predicate TargetOk(line: Line, s: State) {
    && (s.target.Some? <==> s.action == Transfer)
    && (s.target.Some? ==> s.target.value in line.targets && LabelOf(s.target.value) != "")
  }

  /** The action and target are as they were, or both gone. */
  predicate KeptOrCleared(s: State, s': State) {
    || (s'.action == s.action && s'.target == s.target)
    || (s'.action == NoAction && s'.target == None)
  }

  lemma RecordKeepsOrClears(s: State, k: nat, connClosed: bool)
    requires k < |s.requests|
    ensures KeptOrCleared(s, Record(s, k, connClosed))
  {
  }

  lemma QuietKeepsOrClears(line: Line, s: State, e: Event)
    requires !e.Tool?
    ensures KeptOrCleared(s, Step(line, s, e))
  {
    hide Record;
    if e.SettleWakes? && e.request in s.waiting && e.request < |s.requests| {
      RecordKeepsOrClears(s.(waiting := s.waiting - multiset{e.request}), e.request, e.connClosed);
    }
  }

  lemma StepKeepsTarget(line: Line, s: State, e: Event)
    requires TargetOk(line, s)
    ensures TargetOk(line, Step(line, s, e))
  {
    hide TargetFor, Names, Strip, Digits, Record;
    if e.Tool? {
      TargetIsConfigured(line.targets, e.wanted, line.fold);
    } else {
      QuietKeepsOrClears(line, s, e);
      hide Step;
    }
  }

  function Recorded(s: State, k: nat): nat { if k in s.records then s.records[k] else 0 }

  /** Every finished request was recorded exactly once, the open one not yet. */
  predicate RecordsOk(s: State) {
    && (forall k | k in s.records :: k < |s.requests|)
    && (forall k | 0 <= k < |s.requests| :: Recorded(s, k) == if Open(s) && k == |s.requests| - 1 then 0 else 1)
  }

  /** The tasks parked while an attempt is open all await that attempt. */
  predicate WaitersOk(s: State) {
    forall k | k in s.waiting :: k < |s.requests| && (Open(s) ==> k == |s.requests| - 1)
  }

  /** The outcome reads transferred during an attempt and after one that moved the caller, and never otherwise. */
  predicate OutcomeOk(s: State) {
    && (Open(s) ==> s.goal != "" && s.previous != TRANSFERRED && s.movedTo == "")
    && (Open(s) ==> s.requests[|s.requests| - 1] != Dropped)
    && (Open(s) ==> s.outcome == if s.overwritten then ERROR else TRANSFERRED)
    && (!Open(s) && s.movedTo == "" ==> s.outcome != TRANSFERRED)
    && (s.movedTo != "" ==> !s.running && s.outcome == if s.overwritten then ERROR else TRANSFERRED)
  }

  predicate Kept(s: State) {
    RecordsOk(s) && WaitersOk(s) && OutcomeOk(s)
  }

  predicate Booked(line: Line, s: State) {
    && TargetOk(line, s) && (!line.handle ==> s.requests == [])
    && (s.overlapped || Kept(s))
  }

  lemma RecordIsBooked(s: State, connClosed: bool)
    requires Open(s) && !s.overlapped && Kept(s)
    ensures Kept(Record(s, |s.requests| - 1, connClosed))
  {
    var k, s' := |s.requests| - 1, Record(s, |s.requests| - 1, connClosed);
    assert Recorded(s, k) == 0;
    RecordShape(s, k, connClosed);
    assert OutcomeOk(s');
    hide Record, OutcomeOk;
    forall j | 0 <= j < |s'.requests| ensures Recorded(s', j) == 1 {
      assert Recorded(s, j) == if j == k then 0 else 1;
    }
  }

  /** Recording settles one request and counts it. */
  lemma RecordShape(s: State, k: nat, connClosed: bool)
    requires k < |s.requests|
    ensures var s' := Record(s, k, connClosed);
      && s'.settled && s'.overlapped == s.overlapped && |s'.requests| == |s.requests| && s'.waiting == s.waiting
      && s'.records == s.records[k := Recorded(s, k) + 1]
  {
  }

  /** The request succeeded, or its answer was lost as the line closed under it. */
  predicate Moves(s: State, r: Request, connClosed: bool) {
    r == Succeeded || (r == InFlight && (connClosed || s.lineClosed))
  }

  /** Whoever records leaves the caller moved under a name, or the outcome before the attempt. */
  lemma RecordMovesOrRestores(s: State, connClosed: bool)
    requires Open(s) && !s.overlapped && OutcomeOk(s)
    ensures var s' := Record(s, |s.requests| - 1, connClosed);
      && s'.settled
      && (if s'.movedTo != "" then s'.movedTo == s.goal && s'.outcome == s.outcome && !s'.running
          else s'.outcome == s.previous)
      && (s'.movedTo != "" <==> Moves(s, s.requests[|s.requests| - 1], connClosed))
  {
  }

  lemma BeginIsBooked(line: Line, s: State, t: Target)
    requires Booked(line, s) && s.target == Some(t)
    ensures Booked(line, Begin(line, s, t))
  {
    var s' := Begin(line, s, t);
    if !s'.overlapped && !s.lineClosed && line.handle {
      assert s.waiting == multiset{} && !Open(s) && Open(s');
      assert OutcomeOk(s') && WaitersOk(s');
      hide OutcomeOk, WaitersOk;
      forall k | 0 <= k < |s'.requests| ensures Recorded(s', k) == if k == |s'.requests| - 1 then 0 else 1 {
        if k < |s.requests| { assert Recorded(s, k) == 1; }
      }
      assert RecordsOk(s');
    } else {
      assert forall j: nat :: Recorded(s', j) == Recorded(s, j);
    }
  }

  lemma StepIsBooked(line: Line, s: State, e: Event)
    requires Booked(line, s)
    ensures Booked(line, Step(line, s, e))
  {
    StepKeepsTarget(line, s, e);
    hide TargetOk, Kept;
    match e
    case BeginTransfer(t) => BeginFromTarget(line, s, t);
    case SettleWakes(k, timedOut, connClosed) => WakeIsBooked(line, s, k, timedOut, connClosed);
    case _ => QuietIsBooked(line, s, e);
  }

  lemma BeginFromTarget(line: Line, s: State, t: Target)
    requires Booked(line, s)
    ensures Booked(line, Step(line, s, BeginTransfer(t)))
  {
    hide Booked, Begin;
    if s.target == Some(t) { BeginIsBooked(line, s, t); }
  }

  lemma WakeIsBooked(line: Line, s: State, k: nat, timedOut: bool, connClosed: bool)
    requires Booked(line, s)
    ensures var s' := Step(line, s, SettleWakes(k, timedOut, connClosed));
      (!line.handle ==> s'.requests == []) && (s'.overlapped || Kept(s'))
  {
    hide TargetOk, Record;
    var w := s.(waiting := s.waiting - multiset{k});
    if k in s.waiting && k < |s.requests| {
      RecordShape(w, k, connClosed);
      if !s.overlapped {
        FewerWaiters(s, k);
        if Open(s) { RecordIsBooked(w, connClosed); }
      }
    }
  }

  lemma FewerWaiters(s: State, k: nat)
    requires Kept(s)
    ensures Kept(s.(waiting := s.waiting - multiset{k}))
  {
    hide OutcomeOk;
    var w := s.(waiting := s.waiting - multiset{k});
    assert OutcomeOk(w) by { SameOutcome(s, w); }
    assert forall j: nat :: Recorded(w, j) == Recorded(s, j);
  }

  lemma SameOutcome(s: State, w: State)
    requires OutcomeOk(s) && w == s.(waiting := w.waiting)
    ensures OutcomeOk(w)
  {
  }

  /** Nothing the bookkeeping looks at changed. */
  predicate SameBooks(s: State, s': State) {
    s' == s.(action := s'.action, target := s'.target, complete := s'.complete)
  }

  lemma SameBooksKept(s: State, s': State)
    requires SameBooks(s, s')
    ensures Kept(s) ==> Kept(s')
  {
    assert forall j: nat :: Recorded(s', j) == Recorded(s, j);
  }

  lemma ToolKeepsBooks(line: Line, s: State, e: Event)
    requires e.Tool? || e.Clear? || e.MarkComplete?
    ensures SameBooks(s, Step(line, s, e))
  {
    hide OnTool;
    if e.Tool? { OnToolKeepsBooks(line, s, e); }
  }

  lemma OnToolKeepsBooks(line: Line, s: State, e: Event)
    requires e.Tool?
    ensures SameBooks(s, OnTool(line, s, e).0)
  {
    hide TargetFor;
  }

  lemma RequestEndKeepsBooks(line: Line, s: State, k: nat, ok: bool)
    requires Kept(s)
    ensures Kept(Step(line, s, RequestEnds(k, ok)))
  {
    assert forall j: nat :: Recorded(Step(line, s, RequestEnds(k, ok)), j) == Recorded(s, j);
  }

  lemma WaiterKeepsBooks(line: Line, s: State, e: Event)
    requires Kept(s) && (e.SettleBegins? || e.WaiterCancelled?)
    ensures Kept(Step(line, s, e))
  {
    assert forall j: nat :: Recorded(Step(line, s, e), j) == Recorded(s, j);
  }

  lemma LineKeepsBooks(line: Line, s: State, e: Event)
    requires Kept(s) && (e.RemoteHangup? || e.ProxyLost?)
    ensures Kept(Step(line, s, e))
  {
    assert forall j: nat :: Recorded(Step(line, s, e), j) == Recorded(s, j);
  }

  lemma QuietIsBooked(line: Line, s: State, e: Event)
    requires Booked(line, s) && !e.BeginTransfer? && !e.SettleWakes?
    ensures var s' := Step(line, s, e);
      (!line.handle ==> s'.requests == []) && (s'.overlapped || Kept(s'))
  {
    hide Kept, TargetOk, TargetFor;
    if e.Tool? || e.Clear? || e.MarkComplete? {
      ToolKeepsBooks(line, s, e);
      SameBooksKept(s, Step(line, s, e));
    } else if !s.overlapped {
      match e
      case RequestEnds(k, ok) => RequestEndKeepsBooks(line, s, k, ok);
      case SettleBegins => WaiterKeepsBooks(line, s, e);
      case WaiterCancelled(k) => WaiterKeepsBooks(line, s, e);
      case RemoteHangup => LineKeepsBooks(line, s, e);
      case ProxyLost => LineKeepsBooks(line, s, e);
    }
  }

  lemma {:induction false} RunIsBooked(line: Line, es: seq<Event>)
    ensures Booked(line, Exec(line, es))
  {
    hide Booked, Step;
    if es != [] {
      RunIsBooked(line, es[..|es| - 1]);
      StepIsBooked(line, Exec(line, es[..|es| - 1]), es[|es| - 1]);
    } else {
      AnsweredIsBooked(line);
    }
  }

  lemma AnsweredIsBooked(line: Line)
    ensures Booked(line, ANSWERED)
  {
  }

  /** In every run a target stands exactly beside a pending transfer, and only one the route configures. */
  lemma TargetIffTransfer(line: Line, es: seq<Event>)
    ensures var s := Exec(line, es);
      (s.target.Some? <==> s.action == Transfer) && (s.target.Some? ==> s.target.value in line.targets)
  {
    RunIsBooked(line, es);
  }

  /**
   In every run whose attempts do not overlap, however many tasks settle them: each request's outcome is recorded
   exactly once; a caller moved under a name reads transferred, or the error of a proxy lost during the attempt; and
   with no attempt open only a moved one reads transferred.
   */
  lemma TransferBookkeeping(line: Line, es: seq<Event>)
    requires !Exec(line, es).overlapped
    ensures var s := Exec(line, es);
      && (forall k | 0 <= k < |s.requests| :: Recorded(s, k) == if Open(s) && k == |s.requests| - 1 then 0 else 1)
      && (s.movedTo != "" ==> s.outcome == if s.overwritten then ERROR else TRANSFERRED)
      && (s.outcome == TRANSFERRED ==> s.movedTo != "" || Open(s))
  {
    RunIsBooked(line, es);
  }

  /** What executes a pending transfer, or records its outcome. */
  predicate Executes(e: Event) { e.BeginTransfer? || e.SettleWakes? }

  lemma ToolKeepsTransfer(line: Line, s: State, e: Event)
    requires s.action == Transfer && e.Tool?
    ensures OnTool(line, s, e).0 == s
  {
    hide TargetFor;
  }

  lemma PendingTransferStep(line: Line, s: State, e: Event)
    requires s.action == Transfer && s.target.Some? && !Executes(e)
    ensures Step(line, s, e).action == Transfer && Step(line, s, e).target == s.target
  {
    hide OnTool, Record, Begin, HANGUP, ERROR, COMPLETED, Open;
    if e.Tool? { ToolKeepsTransfer(line, s, e); }
  }

  /** A pending transfer stands through every barge-in, tool, hangup and lost proxy until it is executed. */
  lemma {:induction false} TransferStands(line: Line, es: seq<Event>, more: seq<Event>)
    requires Exec(line, es).action == Transfer && forall i | 0 <= i < |more| :: !Executes(more[i])
    ensures Exec(line, es + more).action == Transfer && Exec(line, es + more).target == Exec(line, es).target
    decreases |more|
  {
    hide Step;
    if more == [] {
      assert es + more == es;
    } else {
      var init, e := more[..|more| - 1], more[|more| - 1];
      TransferStands(line, es, init);
      assert (es + more)[..|es + more| - 1] == es + init;
      TargetIffTransfer(line, es + init);
      PendingTransferStep(line, Exec(line, es + init), e);
    }
  }

  /** The line can transfer to someone a caller can name. */
  ghost predicate CanTransfer(line: Line) {
    line.handle && exists wanted: string :: TargetFor(line.targets, wanted, line.fold).Some?
  }

  /** No attempt is open, nobody was moved, and the outcome reads transferred. */
  predicate Misread(s: State) { !Open(s) && s.movedTo == "" && s.outcome == TRANSFERRED }

  predicate Untransferred(s: State) {
    s.action != Transfer && s.target == None && s.requests == [] && s.outcome != TRANSFERRED
  }

  lemma ToolUntransferred(line: Line, s: State, e: Event)
    requires Untransferred(s) && !CanTransfer(line) && e.Tool?
    ensures Untransferred(OnTool(line, s, e).0)
  {
    hide TargetFor;
  }

  lemma WordsDiffer()
    ensures HANGUP != TRANSFERRED && ERROR != TRANSFERRED && COMPLETED != TRANSFERRED
  {
    assert |HANGUP| == 6 && |ERROR| == 5 && |COMPLETED| == 9 && |TRANSFERRED| == 11;
  }

  lemma StepUntransferred(line: Line, s: State, e: Event)
    requires Untransferred(s) && !CanTransfer(line)
    ensures Untransferred(Step(line, s, e))
  {
    hide Record, OnTool, CanTransfer, Begin, HANGUP, TRANSFERRED, ERROR, COMPLETED;
    WordsDiffer();
    if e.Tool? { ToolUntransferred(line, s, e); }
  }

  lemma {:induction false} NeverTransfers(line: Line, es: seq<Event>)
    requires !CanTransfer(line)
    ensures Untransferred(Exec(line, es))
  {
    hide Step, Untransferred, CanTransfer;
    if es == [] {
      AnsweredUntransferred();
    } else {
      NeverTransfers(line, es[..|es| - 1]);
      StepUntransferred(line, Exec(line, es[..|es| - 1]), es[|es| - 1]);
    }
  }

  lemma AnsweredUntransferred()
    ensures Untransferred(ANSWERED)
  {
    WordsDiffer();
  }

  /** A second attempt over an open one, then refused: it restores the "transferred" the first had set. */
  function Overlap(wanted: string, t: Target): seq<Event> {
    [Tool(Some(Transfer), false, wanted, false, false), BeginTransfer(t), BeginTransfer(t), RequestEnds(1, false),
     SettleBegins, SettleWakes(1, false, false)]
  }

  /** Two attempts are open, the second refused, and "transferred" is what it would restore. */
  predicate Overlapping(s: State) {
    s.requests == [InFlight, Refused] && !s.settled && s.previous == TRANSFERRED && s.movedTo == "" && !s.lineClosed
  }

  lemma OverlapOpens(line: Line, s: State, t: Target)
    requires line.handle && s == ANSWERED.(action := Transfer, target := Some(t))
    ensures var twice := Step(line, Step(line, s, BeginTransfer(t)), BeginTransfer(t));
      Overlapping(Step(line, twice, RequestEnds(1, false)))
  {
    var twice := Step(line, Step(line, s, BeginTransfer(t)), BeginTransfer(t));
    assert twice.requests == [InFlight] + [InFlight];
    assert twice.requests[1 := Refused] == [InFlight, Refused];
  }

  lemma OverlapSettles(line: Line, s: State)
    requires Overlapping(s)
    ensures Misread(Step(line, Step(line, s, SettleBegins), SettleWakes(1, false, false)))
  {
  }

  lemma OverlapMisreads(line: Line, wanted: string, t: Target)
    requires line.handle && TargetFor(line.targets, wanted, line.fold) == Some(t)
    ensures Misread(Exec(line, Overlap(wanted, t)))
  {
    hide TargetFor, Misread, Overlapping;
    var es := Overlap(wanted, t);
    var asked := ANSWERED.(action := Transfer, target := Some(t));
    assert Step(line, ANSWERED, es[0]) == asked;
    assert Exec(line, []) == ANSWERED;
    OverlapOpens(line, asked, t);
    hide Step, Exec;
    TwoExec(line, [], es[0], es[1]);
    TwoExec(line, [] + [es[0], es[1]], es[2], es[3]);
    var four := [] + [es[0], es[1]] + [es[2], es[3]];
    OverlapSettles(line, Exec(line, four));
    TwoExec(line, four, es[4], es[5]);
    assert four + [es[4], es[5]] == es;
  }

  lemma TwoExec(line: Line, es: seq<Event>, a: Event, b: Event)
    ensures Exec(line, es + [a, b]) == Step(line, Step(line, Exec(line, es), a), b)
  {
    hide Step;
    var all := es + [a, b];
    assert all[..|all| - 1] == es + [a];
    assert (es + [a])[..|es + [a]| - 1] == es;
  }

  /**
   A call can end up read as transferred with nobody moved exactly on the lines that can transfer at all, and there
   only by an attempt begun before the last one's tasks were done.
   */
  lemma MisreadIff(line: Line)
    ensures (exists es: seq<Event> :: Misread(Exec(line, es))) <==> CanTransfer(line)
    ensures forall es: seq<Event> :: Misread(Exec(line, es)) ==> Exec(line, es).overlapped
  {
    forall es: seq<Event> ensures Misread(Exec(line, es)) ==> CanTransfer(line) && Exec(line, es).overlapped {
      if !CanTransfer(line) { NeverTransfers(line, es); }
      if !Exec(line, es).overlapped { TransferBookkeeping(line, es); }
    }
    if CanTransfer(line) {
      var wanted: string :| TargetFor(line.targets, wanted, line.fold).Some?;
      OverlapMisreads(line, wanted, TargetFor(line.targets, wanted, line.fold).value);
    }
  }

  // What becomes of a call

  /** One attempt from its pause to its record: the person may hang up meanwhile, the request may go unanswered. */
  function Attempt(line: Line, s: State, t: Target, hangup: bool, answer: Option<bool>, connClosed: bool): State {
    var k := |s.requests|;
    var begun := Step(line, Step(line, s, BeginTransfer(t)), SettleBegins);
    var heard := if hangup then Step(line, begun, RemoteHangup) else begun;
    var over := if answer.Some? then Step(line, heard, RequestEnds(k, answer.value)) else heard;
    Step(line, over, SettleWakes(k, true, connClosed))
  }

  /** Attempt `k` awaits its answer, with one task to settle it. */
  predicate Awaited(h: State, k: nat) {
    |h.requests| == k + 1 && h.requests[k] == InFlight && !h.settled && h.waiting == multiset{k}
  }

  lemma AttemptOpens(line: Line, s: State, t: Target, hangup: bool)
    requires s.action == Transfer && s.target == Some(t) && line.handle && !s.lineClosed && s.waiting == multiset{}
    ensures var begun := Step(line, Step(line, s, BeginTransfer(t)), SettleBegins);
      var h := if hangup then Step(line, begun, RemoteHangup) else begun;
      && Awaited(h, |s.requests|) && h.lineClosed == hangup && h.running == s.running && h.movedTo == s.movedTo
      && h.previous == s.outcome && h.outcome == TRANSFERRED && h.goal == LabelOf(t)
      && h.action == s.action && h.target == s.target
  {
    hide Overlaps, LabelOf;
    var k := |s.requests|;
    var begun := Step(line, s, BeginTransfer(t));
    assert begun.requests == s.requests + [InFlight];
    assert multiset{} + multiset{k} == multiset{k};
  }

  lemma AttemptSettles(line: Line, h: State, k: nat, answer: Option<bool>, connClosed: bool)
    requires Awaited(h, k) && h.outcome == TRANSFERRED && h.running && h.action == Transfer
    ensures var over := if answer.Some? then Step(line, h, RequestEnds(k, answer.value)) else h;
      var e := Step(line, over, SettleWakes(k, true, connClosed));
      var moved := if answer.Some? then answer.value else h.lineClosed || connClosed;
      && e.movedTo == (if moved then h.goal else h.movedTo) && e.outcome == (if moved then h.outcome else h.previous)
      && (e.running <==> !moved && !h.lineClosed) && e.lineClosed == h.lineClosed && e.waiting == multiset{}
      && (!moved && (!h.lineClosed || answer.None?) ==> e.action == NoAction && e.target == None && !e.complete)
      && |e.requests| == k + 1
      && e.requests[k] == (if answer.None? then Dropped else if answer.value then Succeeded else Refused)
  {
    var over := if answer.Some? then Step(line, h, RequestEnds(k, answer.value)) else h;
    assert |over.requests| == k + 1 && !over.settled && over.waiting == multiset{k};
    assert over.waiting - multiset{k} == multiset{};
  }

  /**
   An attempt moves the caller exactly when its request succeeds, or goes unanswered while the line closes under it;
   refused with the line open, the call goes on as before with nothing pending; refused after a hangup, it ends.
   */
  lemma AttemptDecides(line: Line, s: State, t: Target, hangup: bool, answer: Option<bool>, connClosed: bool)
    requires s.action == Transfer && s.target == Some(t) && line.handle && !s.lineClosed && s.running
    requires s.waiting == multiset{}
    ensures var e := Attempt(line, s, t, hangup, answer, connClosed);
      var moved := if answer.Some? then answer.value else hangup || connClosed;
      && e.movedTo == (if !moved then s.movedTo else if t.name != "" then t.name else t.number)
      && e.outcome == (if moved then "transferred" else s.outcome)
      && (e.running <==> !moved && !hangup) && e.lineClosed == hangup && e.waiting == multiset{}
      && (!moved && (!hangup || answer.None?) ==> e.action == NoAction && e.target == None && !e.complete)
      && |e.requests| == |s.requests| + 1
      && e.requests[|s.requests|] == (if answer.None? then Dropped else if answer.value then Succeeded else Refused)
  {
    AttemptOpens(line, s, t, hangup);
    var begun := Step(line, Step(line, s, BeginTransfer(t)), SettleBegins);
    var heard := if hangup then Step(line, begun, RemoteHangup) else begun;
    hide Step;
    AttemptSettles(line, heard, |s.requests|, answer, connClosed);
  }

  /** Once the person has hung up, a transfer is not attempted and the call ends. */
  lemma NobodyToMove(line: Line, s: State, t: Target)
    requires s.target == Some(t) && s.lineClosed
    ensures Step(line, s, BeginTransfer(t)) == s.(running := false)
  {
  }

  /** A hangup closes the line, and is the call's outcome exactly when nothing else had ended or was ending it. */
  lemma HangupReads(line: Line, s: State)
    ensures var t := Step(line, s, RemoteHangup);
      && t.lineClosed && t == s.(lineClosed := true, outcome := t.outcome)
      && (t.outcome != s.outcome <==>
            s.outcome == "completed" && !s.complete && s.action != End && s.action != Transfer)
      && (t.outcome == s.outcome || t.outcome == "hangup")
  {
  }

  /** A call the agent completed stays completed when the person then hangs up. */
  lemma CompletedStands(line: Line, s: State)
    ensures var t := Step(line, Step(line, s, MarkComplete), RemoteHangup); t.complete && t.outcome == s.outcome
  {
  }

  /** A proxy lost while the call runs is its outcome. */
  lemma LossReads(line: Line, s: State)
    ensures var t := Step(line, s, ProxyLost); t.outcome == if s.running then "error" else s.outcome
  {
  }

  /** A clear drops a pending end or question; a transfer only when told to, and it goes with its target. */
  lemma ClearDrops(line: Line, s: State, keep: bool)
    requires TargetOk(line, s)
    ensures var t := Step(line, s, Clear(keep));
      && (s.action == Transfer ==> t == s)
      && (s.action != Transfer ==> t == s.(action := NoAction))
    ensures OnClear(s, false) == s.(action := NoAction, target := None)
  {
  }

  /** A task cancelled in its wait no longer settles anything. */
  lemma WaiterLeaves(line: Line, s: State, k: nat)
    ensures Step(line, s, WaiterCancelled(k)).waiting == s.waiting - multiset{k}
  {
  }

  // The code

  /** One call's state and the tools' half of its pipeline. */
  class CallPipeline {
    const line: Line
    var action: Action
    var target: Option<Target>
    var complete: bool
    var running: bool
    var lineClosed: bool
    var outcome: string
    var movedTo: string
    var goal: string
    var previous: string
    var settled: bool
    var requests: seq<Request>
    ghost var waiting: multiset<nat>
    ghost var records: map<nat, nat>
    ghost var overlapped: bool
    ghost var overwritten: bool

    ghost function View(): State
      reads this
    {
      State(action, target, complete, running, lineClosed, outcome, movedTo, goal, previous, settled,
            requests, waiting, records, overlapped, overwritten)
    }

    constructor (line: Line)
      ensures View() == ANSWERED && this.line == line
    {
      this.line := line;
      action, target, complete, running, lineClosed := NoAction, None, false, true, false;
      outcome, movedTo, goal, previous, settled, requests := COMPLETED, "", "", "", false, [];
      waiting, records, overlapped, overwritten := multiset{}, map[], false, false;
    }

    /** Validates and records one action; `ok` is the answer the agent gets. */
    method OnCallControl(wanted: Option<Action>, stale: bool, name: string, unavailable: bool, askable: bool)
      returns (ok: bool)
      modifies this`action, this`target
      ensures (View(), ok) == OnTool(line, old(View()), Tool(wanted, stale, name, unavailable, askable))
    {
      if stale || wanted.None? {
        return false;
      }
      match wanted.value {
      case End =>
        if action in {Action.End, Action.Transfer} {
          return false;
        }
        action := Action.End;
      case Transfer =>
        if action in {Action.End, Action.Transfer} {
          return false;
        }
        var t := TransferTargetFor(line.targets, name, line.fold);
        if t.None? {
          return false;
        }
        if !line.handle || unavailable {
          return false;
        }
        target := t;
        action := Action.Transfer;
      case Ask =>
        if !askable {
          return false;
        }
        if action != NoAction {
          return false;
        }
        action := Action.Ask;
      case NoAction =>
        return false;
      }
      return true;
    }

    method ClearCallControl(keepTransfer: bool)
      modifies this`action, this`target
      ensures View() == OnClear(old(View()), keepTransfer)
    {
      if action == NoAction {
        return;
      }
      if keepTransfer && action == Action.Transfer {
        return;
      }
      action := NoAction;
      target := None;
    }

    method TransferDone()
      modifies this`movedTo, this`running
      ensures View() == old(View()).(movedTo := goal, running := false)
    {
      movedTo := goal;
      running := false;
    }

    method TransferFailed()
      requires action == NoAction ==> target == None
      modifies this`outcome, this`complete, this`action, this`target
      ensures View() == FailTransfer(old(View()))
    {
      outcome := previous;
      complete := false;
      ClearCallControl(false);
    }

    /** Sets the attempt up: the outcome reads transferred before the media leg can close. */
    method OpenAttempt(t: Target)
      modifies this`goal, this`previous, this`settled, this`outcome, this`overlapped, this`overwritten
      ensures View() == Opened(old(View()), t)
    {
      hide LabelOf;
      ghost var was := View();
      goal, previous, settled, outcome := LabelOf(t), outcome, false, TRANSFERRED;
      overlapped, overwritten := Overlaps(was), false;
    }

    /** _do_transfer once its pause is over; `sent`: a request went out and is to be settled. */
    method DoTransfer(t: Target) returns (sent: bool)
      requires target == Some(t) && action == Action.Transfer
      modifies this
      ensures View() == Begin(line, old(View()), t)
      ensures sent <==> !old(lineClosed) && line.handle
    {
      hide Opened, FailTransfer;
      sent := false;
      if lineClosed {
        running := false;
        return;
      }
      OpenAttempt(t);
      if !line.handle {
        TransferFailed();
        return;
      }
      requests := requests + [InFlight];
      return true;
    }

    /** What the request's end means for the call; true when it ends the call. */
    method ResolveRequest(r: Request, connClosed: bool) returns (ended: bool)
      requires action == NoAction ==> target == None
      modifies this`movedTo, this`running, this`outcome, this`complete, this`action, this`target
      ensures View() == Resolve(old(View()), r, connClosed)
      ensures ended <==> r == Succeeded || lineClosed || (r == InFlight && connClosed)
    {
      hide FailTransfer;
      if r == InFlight {
        if connClosed || lineClosed {
          TransferDone();
          return true;
        }
        TransferFailed();
      } else if r == Succeeded {
        TransferDone();
        return true;
      } else if lineClosed {
        outcome := previous;
        running := false;
        return true;
      } else {
        TransferFailed();
      }
      return false;
    }

    /** _settle_transfer after its bounded wait on request `k`; true when the call ended. */
    method SettleTransfer(k: nat, connClosed: bool) returns (ended: bool)
      requires k < |requests| && (action == NoAction ==> target == None)
      modifies this
      ensures View() == if old(settled) then old(View()) else Record(old(View()), k, connClosed)
      ensures old(settled) ==> ended == (movedTo != "")
    {
      hide Resolve;
      if settled {
        return movedTo != "";
      }
      var r := requests[k];
      settled := true;
      records := records[k := (if k in records then records[k] else 0) + 1];
      if r == InFlight {
        requests := requests[k := Dropped];
      }
      ended := ResolveRequest(r, connClosed);
    }
  }
}
