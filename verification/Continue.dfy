/** Carrying a run past auto-denied calls (internal/runner/runner.go, invokeWithAutoContinue):
    resume the same session with a prompt to keep going, and add the work up. The CLI, the
    clock and the cancellation are oracles, asked once per invocation. */
module Continue {

  const MIN_CONTINUE_WINDOW := 180

  /** Session ids, model names, prompts and messages are only compared to the empty one. */
  type Text = nat

  const NOTHING: Text := 0

  datatype Options = Options(resume: Text, timeout: int, prompt: Text)

  /** How an invocation ended; `Denied` carries what was denied. */
  datatype Error = NoError | Denied(message: Text) | Failed

  datatype Reply = Reply(session: Text, model: Text, cost: int, turns: int, error: Error)

  datatype Call = Call(opts: Options, reply: Reply)

  /** Everything the loop cannot see coming: what invocation `k` answers to its options, and,
      before continuation `k`, whether the run was cancelled and how many seconds are left. */
  datatype World = World(answer: (nat, Options) -> Reply, cancelled: nat -> bool, remaining: nat -> int)

  datatype Plan = Plan(max: int, deadline: bool, buildPrompt: Text -> Text)

  // ---------------------------------------------------------------- sums and last words

  function Cost(calls: seq<Call>): int {
    if calls == [] then 0 else Cost(calls[..|calls| - 1]) + calls[|calls| - 1].reply.cost
  }

  function Turns(calls: seq<Call>): int {
    if calls == [] then 0 else Turns(calls[..|calls| - 1]) + calls[|calls| - 1].reply.turns
  }

  /** The last session any call announced, or the one the run was asked to resume. */
  function Session(calls: seq<Call>, asked: Text): Text {
    if calls == [] then asked
    else
      var last := calls[|calls| - 1].reply.session;
      if last != NOTHING then last else Session(calls[..|calls| - 1], asked)
  }

  function Model(calls: seq<Call>): Text {
    if calls == [] then NOTHING
    else
      var last := calls[|calls| - 1].reply.model;
      if last != NOTHING then last else Model(calls[..|calls| - 1])
  }

  // ---------------------------------------------------------------- what a run is

  /** Whether a run that has made `calls` goes on. */
  predicate GoesOn(w: World, p: Plan, asked: Text, calls: seq<Call>)
    requires calls != []
  {
    var k := |calls|;
    && calls[k - 1].reply.error.Denied? && k - 1 < p.max
    && Session(calls, asked) != NOTHING && !w.cancelled(k)
    && (p.deadline ==> w.remaining(k) >= MIN_CONTINUE_WINDOW)
  }

  /** The options of the next invocation: the session known by now, the prompt made from the
      denial, and what is left of the window. */
  function NextOptions(w: World, p: Plan, asked: Text, calls: seq<Call>): Options
    requires calls != [] && calls[|calls| - 1].reply.error.Denied?
  {
    var last := calls[|calls| - 1];
    Options(Session(calls, asked), if p.deadline then w.remaining(|calls|) else last.opts.timeout,
            p.buildPrompt(last.reply.error.message))
  }

  /** Call `k` of a run: the first has the options asked for, each later one continues the
      calls before it. */
  predicate Step(w: World, p: Plan, opts: Options, calls: seq<Call>, k: nat)
    requires k < |calls|
  {
    && calls[k].reply == w.answer(k, calls[k].opts)
    && if k == 0 then calls[0].opts == opts
       else GoesOn(w, p, opts.resume, calls[..k]) && calls[k].opts == NextOptions(w, p, opts.resume, calls[..k])
  }

  predicate IsRun(w: World, p: Plan, opts: Options, calls: seq<Call>) {
    calls != [] && forall k :: 0 <= k < |calls| ==> Step(w, p, opts, calls, k)
  }

  // ---------------------------------------------------------------- the loop

  /** The run stops exactly when it may not go on, and reports the work of every call. */
  method InvokeWithAutoContinue(w: World, p: Plan, opts: Options)
    returns (result: Reply, continues: nat, ghost calls: seq<Call>)
    ensures IsRun(w, p, opts, calls) && !GoesOn(w, p, opts.resume, calls)
    ensures continues == |calls| - 1 && (continues > 0 ==> continues <= p.max)
    ensures result.cost == Cost(calls) && result.turns == Turns(calls)
    ensures result.session == Session(calls, opts.resume) && result.model == Model(calls)
    ensures result.error == calls[|calls| - 1].reply.error
  {
    var o := opts;
    result := w.answer(0, o);
    calls := [Call(o, result)];
    FirstCall(opts.resume, calls[0]);
    assert Step(w, p, opts, calls, 0);
    var session := result.session;
    if session == NOTHING {
      session := opts.resume;
    }
    var totalCost, totalTurns, model := result.cost, result.turns, result.model;
    continues := 0;
    while result.error.Denied? && continues < p.max
      invariant calls != [] && calls[|calls| - 1] == Call(o, result)
      invariant IsRun(w, p, opts, calls)
      invariant continues == |calls| - 1 && (continues > 0 ==> continues <= p.max)
      invariant totalCost == Cost(calls) && totalTurns == Turns(calls)
      invariant session == Session(calls, opts.resume) && model == Model(calls)
      decreases p.max - continues
    {
      if session == NOTHING || w.cancelled(continues + 1) {
        break;
      }
      if p.deadline {
        var remaining := w.remaining(continues + 1);
        if remaining < MIN_CONTINUE_WINDOW {
          break;
        }
        o := o.(timeout := remaining);
      }
      var denial := result.error.message;
      continues := continues + 1;
      o := o.(resume := session, prompt := p.buildPrompt(denial));
      result := w.answer(continues, o);
      totalCost := totalCost + result.cost;
      totalTurns := totalTurns + result.turns;
      if result.session != NOTHING {
        session := result.session;
      }
      if result.model != NOTHING {
        model := result.model;
      }
      RunGrows(w, p, opts, calls, Call(o, result));
      calls := calls + [Call(o, result)];
    }
    result := result.(cost := totalCost, turns := totalTurns);
    if result.session == NOTHING {
      result := result.(session := session);
    }
    if result.model == NOTHING {
      result := result.(model := model);
    }
  }

  lemma FirstCall(asked: Text, c: Call)
    ensures Cost([c]) == c.reply.cost && Turns([c]) == c.reply.turns && Model([c]) == c.reply.model
    ensures Session([c], asked) == if c.reply.session != NOTHING then c.reply.session else asked
  {
    assert [c][..0] == [];
    assert Session([], asked) == asked && Model([]) == NOTHING && Cost([]) == 0 && Turns([]) == 0;
  }

  lemma RunGrows(w: World, p: Plan, opts: Options, calls: seq<Call>, c: Call)
    requires IsRun(w, p, opts, calls) && GoesOn(w, p, opts.resume, calls)
    requires c.opts == NextOptions(w, p, opts.resume, calls) && c.reply == w.answer(|calls|, c.opts)
    ensures var all := calls + [c];
      && IsRun(w, p, opts, all)
      && Cost(all) == Cost(calls) + c.reply.cost && Turns(all) == Turns(calls) + c.reply.turns
      && Session(all, opts.resume) == (if c.reply.session != NOTHING then c.reply.session else Session(calls, opts.resume))
      && Model(all) == if c.reply.model != NOTHING then c.reply.model else Model(calls)
  {
    var all := calls + [c];
    assert all[..|calls|] == calls;
    forall k | 0 <= k < |all|
      ensures Step(w, p, opts, all, k)
    {
      if k < |calls| {
        assert Step(w, p, opts, calls, k);
        assert all[..k] == calls[..k];
      }
    }
  }

  // ---------------------------------------------------------------- what the run promises

  /** The oracles determine the run: of two runs, one is a prefix of the other, so only one
      stops where the loop stops. */
  lemma {:induction false} RunIsDetermined(w: World, p: Plan, opts: Options, a: seq<Call>, b: seq<Call>)
    requires IsRun(w, p, opts, a) && IsRun(w, p, opts, b) && |a| <= |b|
    ensures a == b[..|a|]
    ensures !GoesOn(w, p, opts.resume, a) ==> a == b
  {
    var n := |a| - 1;
    if n > 0 {
      RunPrefix(w, p, opts, a, n);
      RunIsDetermined(w, p, opts, a[..n], b);
      assert a[..n] == b[..n];
    }
    assert Step(w, p, opts, a, n) && Step(w, p, opts, b, n);
    assert a[n] == b[n];
    assert a == a[..n] + [a[n]] && b[..|a|] == b[..n] + [b[n]];
    if |a| < |b| {
      assert Step(w, p, opts, b, |a|);
    }
  }

  lemma RunPrefix(w: World, p: Plan, opts: Options, a: seq<Call>, n: nat)
    requires IsRun(w, p, opts, a) && 0 < n <= |a|
    ensures IsRun(w, p, opts, a[..n])
  {
    forall k | 0 <= k < n
      ensures Step(w, p, opts, a[..n], k)
    {
      assert Step(w, p, opts, a, k);
      assert a[..n][..k] == a[..k];
    }
  }

  /** Once a session is known the run is never left without one: the session reported is
      empty only when none was asked for and none was ever announced. */
  lemma {:induction false} SessionIsNeverLost(calls: seq<Call>, asked: Text)
    ensures Session(calls, asked) == NOTHING <==>
      asked == NOTHING && forall k :: 0 <= k < |calls| ==> calls[k].reply.session == NOTHING
    ensures Session(calls, asked) == asked || exists k :: 0 <= k < |calls| && calls[k].reply.session == Session(calls, asked)
  {
    if calls != [] {
      SessionIsNeverLost(calls[..|calls| - 1], asked);
    }
  }

  /** Every continuation answers the denial right before it: it resumes the session announced
      last, its prompt is made from that denial, and with a deadline it gets what is left of
      the window, at least the minimal one. */
  lemma ContinuationsCarryOn(w: World, p: Plan, opts: Options, calls: seq<Call>, k: nat)
    requires IsRun(w, p, opts, calls) && 0 < k < |calls|
    ensures calls[k].opts.resume == Session(calls[..k], opts.resume) != NOTHING
    ensures calls[k - 1].reply.session != NOTHING ==> calls[k].opts.resume == calls[k - 1].reply.session
    ensures calls[k - 1].reply.session == NOTHING ==> calls[k].opts.resume == if k == 1 then opts.resume else calls[k - 1].opts.resume
    ensures calls[k - 1].reply.error.Denied? && k <= p.max && !w.cancelled(k)
    ensures calls[k].opts.prompt == p.buildPrompt(calls[k - 1].reply.error.message)
    ensures calls[k].opts.timeout == if p.deadline then w.remaining(k) else calls[k - 1].opts.timeout
    ensures p.deadline ==> calls[k].opts.timeout >= MIN_CONTINUE_WINDOW
  {
    assert Step(w, p, opts, calls, k);
    assert calls[..k][..k - 1] == calls[..k - 1];
    if k > 1 {
      assert Step(w, p, opts, calls, k - 1);
    } else {
      assert Session([], opts.resume) == opts.resume;
    }
  }

  /** Without a deadline every call has the timeout asked for, and the first has all that was
      asked for. A run whose last word is a denial stopped for one of four reasons: the
      continuations are used up, no session was ever known, the run was cancelled, or too
      little is left of the window. */
  lemma {:induction false} WhereRunsStop(w: World, p: Plan, opts: Options, calls: seq<Call>)
    requires IsRun(w, p, opts, calls)
    ensures calls[0].opts == opts && calls[0].reply == w.answer(0, opts)
    ensures !p.deadline ==> forall k :: 0 <= k < |calls| ==> calls[k].opts.timeout == opts.timeout
    ensures !GoesOn(w, p, opts.resume, calls) <==>
      !calls[|calls| - 1].reply.error.Denied? || |calls| > p.max
      || (opts.resume == NOTHING && forall k :: 0 <= k < |calls| ==> calls[k].reply.session == NOTHING)
      || w.cancelled(|calls|) || (p.deadline && w.remaining(|calls|) < MIN_CONTINUE_WINDOW)
  {
    var n := |calls| - 1;
    assert Step(w, p, opts, calls, n);
    SessionIsNeverLost(calls, opts.resume);
    if n > 0 {
      RunPrefix(w, p, opts, calls, n);
      WhereRunsStop(w, p, opts, calls[..n]);
      assert calls[..n][0] == calls[0] && calls[..n][n - 1] == calls[n - 1];
      ContinuationsCarryOn(w, p, opts, calls, n);
      assert forall k :: 0 <= k < n ==> calls[..n][k] == calls[k];
    }
  }

  /** A deadline or a cap of zero leaves the first call alone. */
  lemma NoWindowNoContinuation(w: World, p: Plan, opts: Options, calls: seq<Call>)
    requires IsRun(w, p, opts, calls) && (p.max <= 0 || (p.deadline && w.remaining(1) < MIN_CONTINUE_WINDOW) || w.cancelled(1))
    ensures |calls| == 1
  {
    assert |calls| > 1 ==> Step(w, p, opts, calls, 1);
  }
}
