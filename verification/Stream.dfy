/** The event loop around the CLI (internal/claude/invoke.go). Lines arrive already decoded;
    what the loop makes of them is stated over the whole sequence it read. */
module Stream {
  import opened Domain

  const MAX_IDLE_CYCLES := 5

  /** A text of the stream: a message, a session id, a model name. The loop only compares
      texts, so they are represented by numbers; NOTHING is the empty text. */
  type Text = nat

  const NOTHING: Text := 0

  datatype Kind = System | Assistant | User | Outcome | Untyped | Other

  /** A rejected tool call; `call` is empty when the event does not name it. */
  datatype Denial = Denial(message: Text, call: Text)

  /** One line of the stream. `acts` says that a tool was called or has run, `missing` that a
      result reports an unknown session, `limit` is a rate-limit message or empty. */
  datatype Line = Line(
    parsed: bool, kind: Kind, session: Text, model: Text,
    text: Text, cost: int, turns: int, duration: int, missing: bool,
    denial: Option<Denial>, acts: bool, limit: Text)

  datatype Result = Result(session: Text, text: Text, cost: int, turns: int, duration: int, model: Text)

  /** What happened to the process, apart from what it wrote. */
  datatype Fate = Fate(timedOut: bool, cancelled: bool, silenced: bool, exitError: bool)

  /** The first rate-limit message on stderr, and how many lines of stdout were read by then. */
  datatype Stderr = Stderr(message: Text, at: nat)

  datatype End =
    | Limited(message: Text) | IdleLoop(cycles: nat) | TimedOut | Cancelled
    | SessionMissing | Denied(message: Text, denials: nat) | ExitError | Success

  // ---------------------------------------------------------------- first and last

  predicate NamesSession(l: Line) { l.parsed && l.kind.System? && l.session != NOTHING }

  predicate NamesModel(l: Line) { l.parsed && l.model != NOTHING }

  predicate IsOutcome(l: Line) { l.parsed && l.kind.Outcome? }

  predicate ReportsMissing(l: Line) { IsOutcome(l) && l.missing }

  predicate IsLimit(l: Line) { l.limit != NOTHING }

  /** The index of the first line that names a session, |ls| if there is none. */
  function FirstSession(ls: seq<Line>): (k: nat)
    ensures k <= |ls|
  {
    if ls == [] then 0
    else
      var k := FirstSession(ls[..|ls| - 1]);
      if k < |ls| - 1 || NamesSession(ls[|ls| - 1]) then k else |ls|
  }

  /** The index of the first rate-limit message, |ls| if there is none. */
  function FirstLimit(ls: seq<Line>): (k: nat)
    ensures k <= |ls|
  {
    if ls == [] then 0
    else
      var k := FirstLimit(ls[..|ls| - 1]);
      if k < |ls| - 1 || IsLimit(ls[|ls| - 1]) then k else |ls|
  }

  /** The index of the last line that names a model, -1 if there is none. */
  function LastModel(ls: seq<Line>): (k: int)
    ensures -1 <= k < |ls|
  {
    if ls == [] then -1 else if NamesModel(ls[|ls| - 1]) then |ls| - 1 else LastModel(ls[..|ls| - 1])
  }

  /** The index of the last result, -1 if there is none. */
  function LastOutcome(ls: seq<Line>): (k: int)
    ensures -1 <= k < |ls|
  {
    if ls == [] then -1 else if IsOutcome(ls[|ls| - 1]) then |ls| - 1 else LastOutcome(ls[..|ls| - 1])
  }

  /** The four positions are what their names say. */
  lemma {:induction false} Positions(ls: seq<Line>)
    ensures var k := FirstSession(ls);
      k <= |ls| && (k < |ls| ==> NamesSession(ls[k])) && forall j :: 0 <= j < k ==> !NamesSession(ls[j])
    ensures var k := FirstLimit(ls);
      k <= |ls| && (k < |ls| ==> IsLimit(ls[k])) && forall j :: 0 <= j < k ==> !IsLimit(ls[j])
    ensures var k := LastModel(ls); (k >= 0 ==> NamesModel(ls[k])) && forall j :: k < j < |ls| ==> !NamesModel(ls[j])
    ensures var k := LastOutcome(ls); (k >= 0 ==> IsOutcome(ls[k])) && forall j :: k < j < |ls| ==> !IsOutcome(ls[j])
  {
    if ls != [] {
      Positions(ls[..|ls| - 1]);
    }
  }

  /** Some result said that the session does not exist. */
  predicate Missing(ls: seq<Line>) {
    exists k :: 0 <= k < |ls| && ReportsMissing(ls[k])
  }

  /** The metadata of an invocation: the first session named, the last model named, and the
      figures of the last result. */
  function ResultOf(ls: seq<Line>): Result {
    var s, m, r := FirstSession(ls), LastModel(ls), LastOutcome(ls);
    Result(
      if s < |ls| then ls[s].session else NOTHING,
      if r >= 0 then ls[r].text else NOTHING, if r >= 0 then ls[r].cost else 0,
      if r >= 0 then ls[r].turns else 0, if r >= 0 then ls[r].duration else 0,
      if m >= 0 then ls[m].model else NOTHING)
  }

  /** The rate-limit message that counts: stderr's, unless stdout was first. */
  function LimitOf(ls: seq<Line>, err: Option<Stderr>): Text {
    var k := FirstLimit(ls);
    if err.Some? && err.value.at <= k then err.value.message
    else if k < |ls| then ls[k].limit
    else if err.Some? then err.value.message
    else NOTHING
  }

  // ---------------------------------------------------------------- denials

  predicate Identified(l: Line) { l.denial.Some? && l.denial.value.call != NOTHING }

  function DeniedCalls(ls: seq<Line>): set<Text> {
    set k | 0 <= k < |ls| && Identified(ls[k]) :: ls[k].denial.value.call
  }

  function Unidentified(ls: seq<Line>): (n: nat)
    ensures n <= |ls|
  {
    if ls == [] then 0
    else
      var l := ls[|ls| - 1];
      Unidentified(ls[..|ls| - 1]) + if l.denial.Some? && !Identified(l) then 1 else 0
  }

  /** The denials reported: every one of them except a second report of the same call. */
  function FreshMessages(ls: seq<Line>): seq<Text> {
    if ls == [] then []
    else
      var front, l := ls[..|ls| - 1], ls[|ls| - 1];
      FreshMessages(front)
      + if l.denial.Some? && !(Identified(l) && l.denial.value.call in DeniedCalls(front)) then [l.denial.value.message] else []
  }

  lemma DeniedCallsPush(ls: seq<Line>, l: Line)
    ensures DeniedCalls(ls + [l]) == DeniedCalls(ls) + (if Identified(l) then {l.denial.value.call} else {})
  {
    var all := ls + [l];
    forall c | c in DeniedCalls(ls)
      ensures c in DeniedCalls(all)
    {
      var k :| 0 <= k < |ls| && Identified(ls[k]) && ls[k].denial.value.call == c;
      assert all[k] == ls[k];
    }
    if Identified(l) {
      assert all[|ls|] == l;
    }
  }

  /** A denial is counted once however often it is reported, and an unidentified one always:
      distinct identified calls plus unidentified denials. */
  lemma {:induction false} DenialsAreDistinctCalls(ls: seq<Line>)
    ensures |FreshMessages(ls)| == |DeniedCalls(ls)| + Unidentified(ls)
  {
    if ls == [] {
      assert DeniedCalls(ls) == {};
    } else {
      var front, l := ls[..|ls| - 1], ls[|ls| - 1];
      assert ls == front + [l];
      DenialsAreDistinctCalls(front);
      DeniedCallsPush(front, l);
      if Identified(l) && l.denial.value.call in DeniedCalls(front) {
        assert DeniedCalls(ls) == DeniedCalls(front);
      }
    }
  }

  /** A denial was the last thing that happened: nothing was called and nothing ran since. */
  predicate Pending(ls: seq<Line>) {
    exists k :: 0 <= k < |ls| && DeniedAt(ls, k)
  }

  predicate DeniedAt(ls: seq<Line>, k: int) {
    0 <= k < |ls| && ls[k].denial.Some? && forall j :: k < j < |ls| && ls[j].denial.None? ==> !ls[j].acts
  }

  lemma PendingPush(ls: seq<Line>, l: Line)
    ensures Pending(ls + [l]) <==> l.denial.Some? || (Pending(ls) && !l.acts)
  {
    var all := ls + [l];
    if l.denial.Some? {
      assert DeniedAt(all, |ls|);
    } else {
      if Pending(all) {
        var k :| 0 <= k < |all| && DeniedAt(all, k);
        forall j | k < j < |ls| && ls[j].denial.None?
          ensures !ls[j].acts
        {
          assert all[j] == ls[j];
        }
        assert all[|ls|] == l && DeniedAt(ls, k);
      }
      if Pending(ls) && !l.acts {
        var k :| 0 <= k < |ls| && DeniedAt(ls, k);
        assert DeniedAt(all, k);
      }
    }
  }

  /** Whoever is pending has been counted, so a denial is never reported with a count of 0. */
  lemma {:induction false} PendingIsCounted(ls: seq<Line>)
    requires Pending(ls)
    ensures FreshMessages(ls) != []
  {
    var k :| 0 <= k < |ls| && DeniedAt(ls, k);
    Counted(ls, k);
  }

  lemma {:induction false} Counted(ls: seq<Line>, k: nat)
    requires k < |ls| && ls[k].denial.Some?
    ensures FreshMessages(ls) != []
  {
    var front := ls[..|ls| - 1];
    if k < |front| {
      Counted(front, k);
    } else if Identified(ls[k]) && ls[k].denial.value.call in DeniedCalls(front) {
      var j :| 0 <= j < |front| && Identified(front[j]) && front[j].denial.value.call == ls[k].denial.value.call;
      Counted(front, j);
    }
  }

  // ---------------------------------------------------------------- idle cycles

  predicate Idle(l: Line) { IsOutcome(l) && l.turns <= 1 && l.duration == 0 }

  /** Lines the idle count does not look at: system lines, untyped ones and noise. */
  predicate Neutral(l: Line) { !l.parsed || l.kind.System? || l.kind.Untyped? }

  function Effective(ls: seq<Line>): (es: seq<Line>)
    ensures |es| <= |ls|
  {
    if ls == [] then []
    else
      var l := ls[|ls| - 1];
      Effective(ls[..|ls| - 1]) + if Neutral(l) then [] else [l]
  }

  /** The last `n` lines that count are all idle cycles. */
  predicate LastIdle(ls: seq<Line>, n: nat) {
    var es := Effective(ls);
    |es| >= n && forall k :: |es| - n <= k < |es| ==>
      es[k].parsed && es[k].kind.Outcome? && es[k].turns <= 1 && es[k].duration == 0
  }

  /** The loop's counter. */
  function IdleCycles(ls: seq<Line>): (n: nat)
    ensures n <= |ls|
  {
    if ls == [] then 0
    else
      var l := ls[|ls| - 1];
      if Idle(l) then IdleCycles(ls[..|ls| - 1]) + 1
      else if Neutral(l) then IdleCycles(ls[..|ls| - 1])
      else 0
  }

  /** What the counter counts. */
  lemma {:induction false} CyclesAreTheIdleTail(ls: seq<Line>, n: nat)
    ensures LastIdle(ls, n) <==> n <= IdleCycles(ls)
  {
    if ls != [] && n > 0 {
      var front, l := ls[..|ls| - 1], ls[|ls| - 1];
      var es := Effective(front);
      if Idle(l) {
        CyclesAreTheIdleTail(front, n - 1);
        assert Effective(ls) == es + [l];
        if LastIdle(ls, n) {
          forall k | |es| - (n - 1) <= k < |es|
            ensures Idle(es[k])
          {
            assert Effective(ls)[k] == es[k];
          }
        }
      } else if Neutral(l) {
        CyclesAreTheIdleTail(front, n);
        assert Effective(ls) == es;
      } else {
        assert Effective(ls)[|es|] == l;
      }
    }
  }

  predicate IdleStop(ls: seq<Line>) { LastIdle(ls, MAX_IDLE_CYCLES) }

  // ---------------------------------------------------------------- the loop

  /** The outcome of an invocation that read `ls`, by the first cause that applies. */
  function Verdict(ls: seq<Line>, idle: bool, resuming: bool, err: Option<Stderr>, fate: Fate): End {
    var reported := FreshMessages(ls);
    if LimitOf(ls, err) != NOTHING then Limited(LimitOf(ls, err))
    else if idle then IdleLoop(MAX_IDLE_CYCLES)
    else if fate.timedOut then End.TimedOut
    else if fate.cancelled then Cancelled
    else if resuming && Missing(ls) then SessionMissing
    else if (Pending(ls) || fate.silenced) && reported != [] then Denied(reported[|reported| - 1], |reported|)
    else if fate.exitError then ExitError
    else Success
  }

  /** The figures are those of the last result, the model is the last one named, the session
      the first one a system event named; what was never reported is empty. */
  ghost predicate Reads(ls: seq<Line>, r: Result) {
    && (forall k :: 0 <= k < |ls| && IsOutcome(ls[k]) && (forall j :: k < j < |ls| ==> !IsOutcome(ls[j])) ==>
          r.text == ls[k].text && r.cost == ls[k].cost && r.turns == ls[k].turns && r.duration == ls[k].duration)
    && ((forall k :: 0 <= k < |ls| ==> !IsOutcome(ls[k])) ==> r.text == NOTHING && r.cost == r.turns == r.duration == 0)
    && (forall k :: 0 <= k < |ls| && NamesModel(ls[k]) && (forall j :: k < j < |ls| ==> !NamesModel(ls[j])) ==>
          r.model == ls[k].model)
    && ((forall k :: 0 <= k < |ls| ==> !NamesModel(ls[k])) ==> r.model == NOTHING)
    && (forall k :: 0 <= k < |ls| && NamesSession(ls[k]) && (forall j :: 0 <= j < k ==> !NamesSession(ls[j])) ==>
          r.session == ls[k].session)
    && ((forall k :: 0 <= k < |ls| ==> !NamesSession(ls[k])) ==> r.session == NOTHING)
  }

  lemma ResultReads(ls: seq<Line>)
    ensures Reads(ls, ResultOf(ls))
  {
    Positions(ls);
  }

  /** Some line, or stderr, carried a rate-limit message. */
  predicate SawLimit(ls: seq<Line>, err: Option<Stderr>) {
    err.Some? || exists k :: 0 <= k < |ls| && ls[k].limit != NOTHING
  }

  predicate SawDenial(ls: seq<Line>) {
    exists k :: 0 <= k < |ls| && ls[k].denial.Some?
  }

  /** The session it set out to resume was reported missing. */
  predicate SessionGone(ls: seq<Line>, resuming: bool) {
    resuming && exists k :: 0 <= k < |ls| && ls[k].parsed && ls[k].kind.Outcome? && ls[k].missing
  }

  /** The agent fell silent, or stopped, on a denied call. */
  predicate GaveUpOnDenial(ls: seq<Line>, fate: Fate) {
    SawDenial(ls) && (fate.silenced || exists k :: 0 <= k < |ls| && DeniedAt(ls, k))
  }

  /** The seven ways to fail, each exactly when its own sign is there and none of a graver
      one, and success when there is none of them. */
  ghost predicate Ends(ls: seq<Line>, resuming: bool, err: Option<Stderr>, fate: Fate, end: End) {
    var unlimited := !SawLimit(ls, err);
    var busy := unlimited && !LastIdle(ls, 5);
    var inTime := busy && !fate.timedOut;
    var alive := inTime && !fate.cancelled;
    var known := alive && !SessionGone(ls, resuming);
    var free := known && !GaveUpOnDenial(ls, fate);
    && (end.Limited? <==> SawLimit(ls, err))
    && (end.IdleLoop? <==> unlimited && LastIdle(ls, 5))
    && (end.TimedOut? <==> busy && fate.timedOut)
    && (end.Cancelled? <==> inTime && fate.cancelled)
    && (end.SessionMissing? <==> alive && SessionGone(ls, resuming))
    && (end.Denied? <==> known && GaveUpOnDenial(ls, fate))
    && (end.ExitError? <==> free && fate.exitError)
    && (end.Success? <==> free && !fate.exitError)
  }

  /** What the outcomes carry: the first limit message, where stderr goes before a line that
      had not been read by then; the idle cycles; and the last denial that was not a repeat,
      with the number of distinct ones. */
  ghost predicate Carries(ls: seq<Line>, err: Option<Stderr>, end: End) {
    && (end.Limited? ==>
          if err.Some? && forall j :: 0 <= j < |ls| && j < err.value.at ==> ls[j].limit == NOTHING
          then end.message == err.value.message
          else exists k :: 0 <= k < |ls| && ls[k].limit == end.message != NOTHING
                           && forall j :: 0 <= j < k ==> ls[j].limit == NOTHING)
    && (end.IdleLoop? ==> end.cycles == 5)
    && (end.Denied? ==> end.denials == |DeniedCalls(ls)| + Unidentified(ls) >= 1 && LastFresh(ls, end.message))
  }

  /** `m` is the message of a denial after which every denied call had been denied before. */
  ghost predicate LastFresh(ls: seq<Line>, m: Text) {
    exists k: nat :: FreshAt(ls, k) && ls[k].denial.value.message == m && OnlyRepeats(ls, k + 1)
  }

  predicate FreshAt(ls: seq<Line>, k: nat) {
    k < |ls| && ls[k].denial.Some? && !Repeated(ls, k)
  }

  predicate OnlyRepeats(ls: seq<Line>, n: nat) {
    forall j :: n <= j < |ls| && ls[j].denial.Some? ==> Repeated(ls, j)
  }

  predicate Repeated(ls: seq<Line>, j: nat)
    requires j < |ls|
  {
    ls[j].denial.Some? && ls[j].denial.value.call != NOTHING
    && exists i :: 0 <= i < j && ls[i].denial.Some? && ls[i].denial.value.call == ls[j].denial.value.call
  }

  lemma RepeatedIsCalled(front: seq<Line>, l: Line)
    ensures Repeated(front + [l], |front|) <==> Identified(l) && l.denial.value.call in DeniedCalls(front)
  {
    var ls := front + [l];
    if Repeated(ls, |front|) {
      var i :| 0 <= i < |front| && ls[i].denial.Some? && ls[i].denial.value.call == l.denial.value.call;
      assert front[i] == ls[i] && Identified(front[i]);
    }
    if Identified(l) && l.denial.value.call in DeniedCalls(front) {
      var i :| 0 <= i < |front| && Identified(front[i]) && front[i].denial.value.call == l.denial.value.call;
      assert ls[i] == front[i];
    }
  }

  lemma RepeatedStays(front: seq<Line>, l: Line, j: nat)
    requires j < |front|
    ensures Repeated(front + [l], j) <==> Repeated(front, j)
  {
    var ls := front + [l];
    assert forall i :: 0 <= i <= j ==> ls[i] == front[i];
  }

  lemma LastFreshPush(front: seq<Line>, l: Line, m: Text)
    requires LastFresh(front, m) && (l.denial.Some? ==> Repeated(front + [l], |front|))
    ensures LastFresh(front + [l], m)
  {
    var ls := front + [l];
    var k: nat :| FreshAt(front, k) && front[k].denial.value.message == m && OnlyRepeats(front, k + 1);
    RepeatedStays(front, l, k);
    forall j | k + 1 <= j < |ls| && ls[j].denial.Some?
      ensures Repeated(ls, j)
    {
      if j < |front| {
        RepeatedStays(front, l, j);
      }
    }
    assert FreshAt(ls, k);
  }

  lemma {:induction false} FreshIsLast(ls: seq<Line>)
    requires FreshMessages(ls) != []
    ensures LastFresh(ls, FreshMessages(ls)[|FreshMessages(ls)| - 1])
  {
    var front, l := ls[..|ls| - 1], ls[|ls| - 1];
    assert ls == front + [l];
    RepeatedIsCalled(front, l);
    if l.denial.Some? && !Repeated(ls, |front|) {
      assert FreshAt(ls, |front|) && OnlyRepeats(ls, |front| + 1);
    } else {
      FreshIsLast(front);
      LastFreshPush(front, l, FreshMessages(front)[|FreshMessages(front)| - 1]);
    }
  }

  lemma SeenIsFresh(ls: seq<Line>)
    ensures SawDenial(ls) <==> FreshMessages(ls) != []
  {
    if FreshMessages(ls) != [] {
      FreshIsLast(ls);
    }
    if k :| 0 <= k < |ls| && ls[k].denial.Some? {
      Counted(ls, k);
    }
  }

  lemma SeenIsLimit(ls: seq<Line>, err: Option<Stderr>)
    requires err.Some? ==> err.value.message != NOTHING
    ensures SawLimit(ls, err) <==> LimitOf(ls, err) != NOTHING
  {
    Positions(ls);
    if k :| 0 <= k < |ls| && ls[k].limit != NOTHING {
      assert IsLimit(ls[k]);
    }
  }

  lemma VerdictEnds(ls: seq<Line>, resuming: bool, err: Option<Stderr>, fate: Fate)
    requires err.Some? ==> err.value.message != NOTHING
    ensures Ends(ls, resuming, err, fate, Verdict(ls, IdleStop(ls), resuming, err, fate))
  {
    SeenIsFresh(ls);
    SeenIsLimit(ls, err);
    assert SessionGone(ls, resuming) <==> resuming && Missing(ls) by {
      if SessionGone(ls, resuming) {
        var k :| 0 <= k < |ls| && ls[k].parsed && ls[k].kind.Outcome? && ls[k].missing;
        assert ReportsMissing(ls[k]);
      }
    }
  }

  lemma VerdictCarries(ls: seq<Line>, resuming: bool, err: Option<Stderr>, fate: Fate)
    requires err.Some? ==> err.value.message != NOTHING
    ensures Carries(ls, err, Verdict(ls, IdleStop(ls), resuming, err, fate))
  {
    var end := Verdict(ls, IdleStop(ls), resuming, err, fate);
    if end.Denied? {
      FreshIsLast(ls);
      DenialsAreDistinctCalls(ls);
    }
    if end.Limited? {
      Positions(ls);
      var k := FirstLimit(ls);
      assert forall j :: 0 <= j < k ==> !IsLimit(ls[j]);
      if k < |ls| {
        assert ls[k].limit != NOTHING;
      }
    }
  }

  /** What the loop knows about denials: how many, the last message, which calls, whether the
      agent is still sitting on one, and the messages handed to the caller. */
  datatype Denials = Denials(count: nat, message: Text, seen: set<Text>, pending: bool, notified: seq<Text>)

  const NONE := Denials(0, NOTHING, {}, false, [])

  function DenialsOf(ls: seq<Line>): Denials {
    var ms := FreshMessages(ls);
    Denials(|ms|, if ms == [] then NOTHING else ms[|ms| - 1], DeniedCalls(ls), Pending(ls), ms)
  }

  function StepDenials(d: Denials, l: Line): Denials {
    if l.denial.Some? then
      var denial := l.denial.value;
      if denial.call != NOTHING && denial.call in d.seen then d.(pending := true)
      else Denials(d.count + 1, denial.message, if denial.call == NOTHING then d.seen else d.seen + {denial.call},
                   true, d.notified + [denial.message])
    else if l.acts then d.(pending := false)
    else d
  }

  function FoldDenials(ls: seq<Line>): Denials {
    if ls == [] then NONE else StepDenials(FoldDenials(ls[..|ls| - 1]), ls[|ls| - 1])
  }

  method NoteDenial(d: Denials, l: Line) returns (d': Denials)
    ensures d' == StepDenials(d, l)
  {
    d' := d;
    if l.denial.Some? {
      // A policy denial arrives twice; an unidentified one always counts.
      var denial := l.denial.value;
      if denial.call == NOTHING || denial.call !in d.seen {
        d' := d'.(count := d.count + 1, message := denial.message, notified := d.notified + [denial.message]);
        if denial.call != NOTHING {
          d' := d'.(seen := d.seen + {denial.call});
        }
      }
      d' := d'.(pending := true);
    } else if l.acts {
      d' := d'.(pending := false);
    }
  }

  lemma {:induction false} DenialsMean(ls: seq<Line>)
    ensures FoldDenials(ls) == DenialsOf(ls)
  {
    if ls != [] {
      var front, l := ls[..|ls| - 1], ls[|ls| - 1];
      assert ls == front + [l];
      DenialsMean(front);
      DenialGrows(front, l);
    }
  }

  /** What the loop has learnt from the events: the metadata so far, whether the session has
      been announced, and whether the session to resume was reported missing. */
  datatype Data = Data(result: Result, sessionFired: bool, missing: bool)

  const BLANK := Data(Result(NOTHING, NOTHING, 0, 0, 0, NOTHING), false, false)

  function DataOf(ls: seq<Line>, resuming: bool): Data {
    Data(ResultOf(ls), FirstSession(ls) < |ls|, resuming && Missing(ls))
  }

  function StepResult(r: Result, l: Line, fired: bool): Result {
    var r1 := if !fired && NamesSession(l) then r.(session := l.session) else r;
    var r2 := if NamesModel(l) then r1.(model := l.model) else r1;
    if IsOutcome(l) then r2.(text := l.text, cost := l.cost, turns := l.turns, duration := l.duration) else r2
  }

  function StepData(d: Data, l: Line, resuming: bool): Data {
    Data(StepResult(d.result, l, d.sessionFired), d.sessionFired || NamesSession(l),
         d.missing || (resuming && ReportsMissing(l)))
  }

  function FoldData(ls: seq<Line>, resuming: bool): Data {
    if ls == [] then BLANK else StepData(FoldData(ls[..|ls| - 1], resuming), ls[|ls| - 1], resuming)
  }

  method NoteData(d: Data, l: Line, resuming: bool) returns (d': Data)
    ensures d' == StepData(d, l, resuming)
  {
    d' := d;
    if l.parsed {
      // The session is announced once; later system events repeat it.
      if !d.sessionFired && l.kind.System? && l.session != NOTHING {
        d' := d'.(result := d'.result.(session := l.session), sessionFired := true);
      }
      if l.model != NOTHING {
        d' := d'.(result := d'.result.(model := l.model));
      }
      if l.kind.Outcome? {
        d' := d'.(result := d'.result.(text := l.text, cost := l.cost, turns := l.turns, duration := l.duration));
        if resuming && l.missing {
          d' := d'.(missing := true);
        }
      }
    }
  }

  lemma {:induction false} DataMeans(ls: seq<Line>, resuming: bool)
    ensures FoldData(ls, resuming) == DataOf(ls, resuming)
  {
    if ls != [] {
      var front, l := ls[..|ls| - 1], ls[|ls| - 1];
      assert ls == front + [l];
      DataMeans(front, resuming);
      ResultGrows(front, l);
      MissingGrows(front, l);
    }
  }

  /** Whoever is first, stdout or stderr, is kept. */
  function FoldLimit(ls: seq<Line>, err: Option<Stderr>): Text {
    if ls == [] then NOTHING
    else
      var n := |ls| - 1;
      var was := FoldLimit(ls[..n], err);
      if was != NOTHING then was
      else if err.Some? && err.value.at == n then err.value.message
      else ls[n].limit
  }

  lemma {:induction false} LimitMeans(ls: seq<Line>, err: Option<Stderr>)
    requires err.Some? ==> err.value.message != NOTHING
    ensures FoldLimit(ls, err) == LimitSoFar(ls, err)
  {
    if ls != [] {
      var front, l := ls[..|ls| - 1], ls[|ls| - 1];
      assert ls == front + [l];
      LimitMeans(front, err);
      LimitGrows(front, l, err);
    }
  }

  /** The loop is not stopped by the first `n` lines. */
  predicate GoesOn(lines: seq<Line>, n: nat)
    requires n <= |lines|
  {
    !IdleStop(lines[..n])
  }

  /** One more line, one more step of each fold. */
  lemma FoldsPush(past: seq<Line>, l: Line, resuming: bool, err: Option<Stderr>)
    ensures FoldDenials(past + [l]) == StepDenials(FoldDenials(past), l)
    ensures FoldData(past + [l], resuming) == StepData(FoldData(past, resuming), l, resuming)
    ensures var was := FoldLimit(past, err);
      FoldLimit(past + [l], err)
      == if was != NOTHING then was
         else if err.Some? && err.value.at == |past| then err.value.message else l.limit
  {
    assert (past + [l])[..|past|] == past;
  }

  /** The event loop. It reads every line, or stops at the first that completes five idle
      cycles in a row. */
  method Scan(lines: seq<Line>, resuming: bool, err: Option<Stderr>)
    returns (read: nat, limit: Text, idleKilled: bool, denials: Denials, data: Data)
    requires err.Some? ==> err.value.message != NOTHING
    ensures read <= |lines| && (read < |lines| ==> idleKilled)
    ensures forall n :: 0 <= n < read ==> GoesOn(lines, n)
    ensures idleKilled <==> IdleStop(lines[..read])
    ensures limit == FoldLimit(lines[..read], err)
    ensures denials == FoldDenials(lines[..read]) && data == FoldData(lines[..read], resuming)
  {
    var idleCycles := 0;
    read, limit, idleKilled, denials, data := 0, NOTHING, false, NONE, BLANK;
    ghost var past: seq<Line> := [];
    IdleFacts(past);
    while read < |lines| && !idleKilled
      invariant read <= |lines| && past == lines[..read]
      invariant forall n :: 0 <= n < read ==> GoesOn(lines, n)
      invariant idleCycles == IdleCycles(past)
      invariant idleKilled <==> IdleStop(past)
      invariant limit == FoldLimit(past, err)
      invariant denials == FoldDenials(past)
      invariant data == FoldData(past, resuming)
      decreases |lines| - read, !idleKilled
    {
      var l := lines[read];
      assert GoesOn(lines, read);
      ghost var after := past + [l];
      FoldsPush(past, l, resuming, err);
      if err.Some? && err.value.at == read && limit == NOTHING {
        limit := err.value.message;
      }
      if limit == NOTHING {
        limit := l.limit;
      }
      denials := NoteDenial(denials, l);
      data := NoteData(data, l, resuming);
      if l.parsed {
        if Idle(l) {
          idleCycles := idleCycles + 1;
          if idleCycles >= MAX_IDLE_CYCLES {
            idleKilled := true;
          }
        } else if !l.kind.System? && !l.kind.Untyped? {
          idleCycles := 0;
        }
      }
      IdleFacts(past);
      IdleFacts(after);
      read, past := read + 1, after;
    }
  }

  /** Everything an invocation reports is a function of the lines read, and the lines read
      end where the loop stops. */
  method Invoke(lines: seq<Line>, resuming: bool, err: Option<Stderr>, fate: Fate)
    returns (read: nat, result: Result, end: End, notified: seq<Text>)
    requires err.Some? ==> err.value.message != NOTHING
    ensures read <= |lines| && forall n :: 0 <= n < read ==> GoesOn(lines, n)
    ensures read < |lines| ==> IdleStop(lines[..read])
    ensures result == ResultOf(lines[..read]) && notified == FreshMessages(lines[..read])
    ensures end == Verdict(lines[..read], IdleStop(lines[..read]), resuming, err, fate)
    ensures Ends(lines[..read], resuming, err, fate, end) && Carries(lines[..read], err, end)
    ensures Reads(lines[..read], result)
  {
    var limit, idleKilled, denials, data;
    read, limit, idleKilled, denials, data := Scan(lines, resuming, err);
    LimitMeans(lines[..read], err);
    DenialsMean(lines[..read]);
    DataMeans(lines[..read], resuming);
    Positions(lines[..read]);
    // Everything written to stderr has been read by now.
    if err.Some? && limit == NOTHING {
      limit := err.value.message;
    }
    result, notified := data.result, denials.notified;
    end := Ending(lines[..read], limit, idleKilled, denials, data, resuming, err, fate);
    ResultReads(lines[..read]);
    VerdictEnds(lines[..read], resuming, err, fate);
    VerdictCarries(lines[..read], resuming, err, fate);
  }

  method Ending(ghost ls: seq<Line>, limit: Text, idleKilled: bool, denials: Denials, data: Data,
                resuming: bool, ghost err: Option<Stderr>, fate: Fate) returns (end: End)
    requires limit == LimitOf(ls, err) && denials == DenialsOf(ls) && data == DataOf(ls, resuming)
    ensures end == Verdict(ls, idleKilled, resuming, err, fate)
  {
    if limit != NOTHING {
      end := Limited(limit);
    } else if idleKilled {
      end := IdleLoop(MAX_IDLE_CYCLES);
    } else if fate.timedOut {
      end := End.TimedOut;
    } else if fate.cancelled {
      end := Cancelled;
    } else if data.missing {
      end := SessionMissing;
    } else if (denials.pending || fate.silenced) && denials.count > 0 {
      end := Denied(denials.message, denials.count);
    } else if fate.exitError {
      end := ExitError;
    } else {
      end := Success;
    }
  }

  /** What one more line does to each thing the loop keeps. */
  lemma DenialGrows(ls: seq<Line>, l: Line)
    ensures var all := ls + [l];
      && FreshMessages(all) == FreshMessages(ls)
           + (if l.denial.Some? && !(Identified(l) && l.denial.value.call in DeniedCalls(ls)) then [l.denial.value.message] else [])
      && DeniedCalls(all) == DeniedCalls(ls) + (if Identified(l) then {l.denial.value.call} else {})
      && (Pending(all) <==> l.denial.Some? || (Pending(ls) && !l.acts))
  {
    assert (ls + [l])[..|ls|] == ls;
    DeniedCallsPush(ls, l);
    PendingPush(ls, l);
  }

  lemma ResultGrows(ls: seq<Line>, l: Line)
    ensures var was, now := ResultOf(ls), ResultOf(ls + [l]);
      && now.session == (if FirstSession(ls) == |ls| && NamesSession(l) then l.session else was.session)
      && now.model == (if NamesModel(l) then l.model else was.model)
      && (if IsOutcome(l) then now.text == l.text && now.cost == l.cost && now.turns == l.turns && now.duration == l.duration
          else now.text == was.text && now.cost == was.cost && now.turns == was.turns && now.duration == was.duration)
    ensures FirstSession(ls + [l]) < |ls| + 1 <==> FirstSession(ls) < |ls| || NamesSession(l)
  {
    assert (ls + [l])[..|ls|] == ls;
  }

  lemma MissingGrows(ls: seq<Line>, l: Line)
    ensures Missing(ls + [l]) <==> Missing(ls) || ReportsMissing(l)
  {
    var all := ls + [l];
    if Missing(ls) {
      var k :| 0 <= k < |ls| && ReportsMissing(ls[k]);
      assert ReportsMissing(all[k]);
    }
    if ReportsMissing(l) {
      assert ReportsMissing(all[|ls|]);
    }
  }

  lemma IdleFacts(ls: seq<Line>)
    ensures IdleStop(ls) <==> IdleCycles(ls) >= MAX_IDLE_CYCLES
  {
    CyclesAreTheIdleTail(ls, MAX_IDLE_CYCLES);
  }

  lemma PendingIsCountedIf(ls: seq<Line>)
    ensures Pending(ls) ==> FreshMessages(ls) != []
  {
    if Pending(ls) {
      PendingIsCounted(ls);
    }
  }

  /** The message held after reading `ls`, with the stderr reader possibly still to come. */
  function LimitSoFar(ls: seq<Line>, err: Option<Stderr>): Text {
    var k := FirstLimit(ls);
    if err.Some? && err.value.at < |ls| && err.value.at <= k then err.value.message
    else if k < |ls| then ls[k].limit
    else NOTHING
  }

  lemma LimitGrows(ls: seq<Line>, l: Line, err: Option<Stderr>)
    requires err.Some? ==> err.value.message != NOTHING
    ensures var was := LimitSoFar(ls, err);
      var here := if err.Some? && err.value.at == |ls| then err.value.message else l.limit;
      LimitSoFar(ls + [l], err) == if was != NOTHING then was else here
  {
    assert (ls + [l])[..|ls|] == ls;
    Positions(ls);
  }

  // ---------------------------------------------------------------- what the outcomes mean

  /** With the watchdog silent, a denial is what an invocation ends with exactly when nothing
      else ended it and the agent was still sitting on a denied call. */
  lemma DeniedMeansWaiting(ls: seq<Line>, idle: bool, resuming: bool, err: Option<Stderr>, fate: Fate)
    requires !fate.silenced
    ensures Verdict(ls, idle, resuming, err, fate).Denied? <==>
      && Pending(ls) && LimitOf(ls, err) == NOTHING && !idle && !fate.timedOut && !fate.cancelled
      && !(resuming && Missing(ls))
    ensures var end := Verdict(ls, idle, resuming, err, fate);
      end.Denied? ==> end.denials == |DeniedCalls(ls)| + Unidentified(ls) >= 1
  {
    PendingIsCountedIf(ls);
    DenialsAreDistinctCalls(ls);
  }

  /** An agent that takes up work again is left alone: whatever came before, a call issued or
      run with no denial after it means that no denial is pending. */
  lemma WorkClearsDenial(ls: seq<Line>, k: nat)
    requires k < |ls| && ls[k].acts && forall j :: k <= j < |ls| ==> ls[j].denial.None?
    ensures !Pending(ls)
  {
    forall d | 0 <= d < |ls|
      ensures !DeniedAt(ls, d)
    {
    }
  }

  /** System lines never reset the idle count and never add to it. */
  lemma NeutralLinesAreInvisible(a: seq<Line>, l: Line, b: seq<Line>)
    requires Neutral(l)
    ensures IdleStop(a + [l] + b) <==> IdleStop(a + b)
  {
    NeutralIsSkipped(a, l, b);
  }

  lemma {:induction false} NeutralIsSkipped(a: seq<Line>, l: Line, b: seq<Line>)
    requires Neutral(l)
    ensures Effective(a + [l] + b) == Effective(a + b)
  {
    if b == [] {
      assert a + [l] + b == a + [l] && (a + [l])[..|a|] == a && a + b == a;
    } else {
      var n := |b| - 1;
      NeutralIsSkipped(a, l, b[..n]);
      assert (a + [l] + b)[..|a| + 1 + n] == a + [l] + b[..n];
      assert (a + b)[..|a| + n] == a + b[..n];
    }
  }
}
