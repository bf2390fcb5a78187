/** Did a finished log end on a denied or interrupted call (internal/claude/denial.go)? The
    reader keeps the last forty lines that are not blank and folds over them. */
module LogTail {

  const LOG_TAIL_LINES := 40

  /** Messages are compared to the empty one only, so they are numbers and 0 is empty. */
  type Text = nat

  const NOTHING: Text := 0

  /** A log line: what a denial on it says, what an interrupt on it says, and whether a tool
      ran. */
  datatype Line = Line(blank: bool, denial: Text, interrupt: Text, ran: bool)

  function Written(ls: seq<Line>): seq<Line> {
    if ls == [] then []
    else
      var l := ls[|ls| - 1];
      Written(ls[..|ls| - 1]) + if l.blank then [] else [l]
  }

  /** The last `n` elements. */
  function LastOf(ls: seq<Line>, n: nat): seq<Line> {
    if |ls| <= n then ls else ls[|ls| - n..]
  }

  method Tail(lines: seq<Line>) returns (tail: seq<Line>)
    ensures tail == LastOf(Written(lines), LOG_TAIL_LINES)
  {
    tail := [];
    ghost var past: seq<Line> := [];
    for i := 0 to |lines|
      invariant past == lines[..i]
      invariant tail == LastOf(Written(past), LOG_TAIL_LINES)
    {
      ghost var after := past + [lines[i]];
      assert after[..i] == past && after == lines[..i + 1];
      if !lines[i].blank {
        if |tail| == LOG_TAIL_LINES {
          tail := tail[1..];
        }
        tail := tail + [lines[i]];
      }
      past := after;
    }
    assert past == lines;
  }

  // ---------------------------------------------------------------- the fold

  /** A tool ran and nothing on the line says it was denied: the agent was working. */
  predicate Works(l: Line) {
    l.denial == NOTHING && l.interrupt == NOTHING && l.ran
  }

  /** Everything from `c` on happened after the agent last worked. */
  predicate SinceWork(tail: seq<Line>, c: nat) {
    && c <= |tail| && (c > 0 ==> Works(tail[c - 1]))
    && forall j :: c <= j < |tail| ==> !Works(tail[j])
  }

  predicate LastDenial(tail: seq<Line>, c: nat, d: int) {
    c <= d < |tail| && tail[d].denial != NOTHING && forall j :: d < j < |tail| ==> tail[j].denial == NOTHING
  }

  predicate NoDenial(tail: seq<Line>, c: nat) {
    forall j :: c <= j < |tail| ==> tail[j].denial == NOTHING
  }

  predicate FirstInterrupt(tail: seq<Line>, c: nat, i: int) {
    c <= i < |tail| && tail[i].interrupt != NOTHING && forall j :: c <= j < i ==> tail[j].interrupt == NOTHING
  }

  predicate NoInterrupt(tail: seq<Line>, c: nat) {
    forall j :: c <= j < |tail| ==> tail[j].interrupt == NOTHING
  }

  /** What the agent would read last: since it last worked, the last denial, or for want of
      one the first interrupt, or nothing. */
  predicate EndsOn(tail: seq<Line>, msg: Text) {
    exists c :: 0 <= c <= |tail| && SinceWork(tail, c) && EndsSince(tail, c, msg)
  }

  predicate EndsSince(tail: seq<Line>, c: nat, msg: Text) {
    || (exists d :: c <= d < |tail| && LastDenial(tail, c, d) && msg == tail[d].denial)
    || (NoDenial(tail, c) && exists i :: c <= i < |tail| && FirstInterrupt(tail, c, i) && msg == tail[i].interrupt)
    || (NoDenial(tail, c) && NoInterrupt(tail, c) && msg == NOTHING)
  }

  lemma EndsPush(tail: seq<Line>, c: nat, msg: Text, l: Line)
    requires SinceWork(tail, c) && EndsSince(tail, c, msg)
    ensures Works(l) ==> SinceWork(tail + [l], |tail| + 1) && EndsSince(tail + [l], |tail| + 1, NOTHING)
    ensures !Works(l) ==> SinceWork(tail + [l], c)
    ensures l.denial != NOTHING ==> EndsSince(tail + [l], c, l.denial)
    ensures !Works(l) && l.denial == NOTHING ==>
      EndsSince(tail + [l], c, if msg == NOTHING && l.interrupt != NOTHING then l.interrupt else msg)
  {
    var all, n := tail + [l], |tail|;
    assert forall j :: 0 <= j < n ==> all[j] == tail[j];
    assert all[n] == l;
    if l.denial != NOTHING {
      assert LastDenial(all, c, n);
    } else if !Works(l) {
      if d :| c <= d < n && LastDenial(tail, c, d) && msg == tail[d].denial {
        assert LastDenial(all, c, d);
      } else if NoDenial(tail, c) {
        assert NoDenial(all, c);
        if i :| c <= i < n && FirstInterrupt(tail, c, i) && msg == tail[i].interrupt {
          assert FirstInterrupt(all, c, i);
        } else if l.interrupt != NOTHING {
          assert FirstInterrupt(all, c, n);
        } else {
          assert NoInterrupt(all, c);
        }
      }
    }
  }

  method Fold(tail: seq<Line>) returns (ended: bool, msg: Text)
    ensures EndsOn(tail, msg)
    ensures ended <==> msg != NOTHING
  {
    msg := NOTHING;
    ghost var c: nat := 0;
    ghost var past: seq<Line> := [];
    assert NoDenial(past, 0) && NoInterrupt(past, 0);
    for k := 0 to |tail|
      invariant past == tail[..k]
      invariant SinceWork(past, c) && EndsSince(past, c, msg)
    {
      var l := tail[k];
      EndsPush(past, c, msg, l);
      assert tail[..k + 1] == past + [l];
      if l.denial != NOTHING {
        msg := l.denial;
      } else if l.interrupt != NOTHING {
        if msg == NOTHING {
          msg := l.interrupt;
        }
      } else if l.ran {
        msg, c := NOTHING, k + 1;
      }
      past := tail[..k + 1];
    }
    assert past == tail;
    ended := msg != NOTHING;
  }

  method LogEndedInterrupted(lines: seq<Line>) returns (ended: bool, msg: Text)
    ensures EndsOn(LastOf(Written(lines), LOG_TAIL_LINES), msg)
    ensures ended <==> msg != NOTHING
  {
    var tail := Tail(lines);
    ended, msg := Fold(tail);
  }

  /** The verdict is one: a tail ends on one message only. */
  lemma EndsOnOne(tail: seq<Line>, a: Text, b: Text)
    requires EndsOn(tail, a) && EndsOn(tail, b)
    ensures a == b
  {
    var c :| 0 <= c <= |tail| && SinceWork(tail, c) && EndsSince(tail, c, a);
    var e :| 0 <= e <= |tail| && SinceWork(tail, e) && EndsSince(tail, e, b);
    assert c > 0 ==> Works(tail[c - 1]);
    assert e > 0 ==> Works(tail[e - 1]);
  }

  /** An agent is warned exactly when it has not worked since it was last denied or
      interrupted, as far as the tail shows. */
  lemma WarnedIffCutShort(tail: seq<Line>, msg: Text)
    requires EndsOn(tail, msg)
    ensures msg != NOTHING <==>
      exists k :: 0 <= k < |tail| && (tail[k].denial != NOTHING || tail[k].interrupt != NOTHING)
                  && forall j :: k < j < |tail| ==> !tail[j].ran || tail[j].denial != NOTHING || tail[j].interrupt != NOTHING
  {
    var c :| 0 <= c <= |tail| && SinceWork(tail, c) && EndsSince(tail, c, msg);
    if msg == NOTHING {
      assert NoDenial(tail, c) && NoInterrupt(tail, c);
      forall k | 0 <= k < |tail| && (tail[k].denial != NOTHING || tail[k].interrupt != NOTHING)
        ensures exists j :: k < j < |tail| && Works(tail[j])
      {
        assert k < c && k != c - 1;
        assert Works(tail[c - 1]);
      }
    }
  }

  /** Blank lines change nothing, and neither does anything older than forty written lines:
      two logs that share their recent lines are answered alike. */
  lemma OnlyTheTailMatters(old1: seq<Line>, old2: seq<Line>, recent: seq<Line>, a: Text, b: Text)
    requires |Written(recent)| >= LOG_TAIL_LINES
    requires EndsOn(LastOf(Written(old1 + recent), LOG_TAIL_LINES), a)
    requires EndsOn(LastOf(Written(old2 + recent), LOG_TAIL_LINES), b)
    ensures a == b
  {
    SameTail(old1, recent);
    SameTail(old2, recent);
    EndsOnOne(LastOf(Written(recent), LOG_TAIL_LINES), a, b);
  }

  lemma SameTail(past: seq<Line>, recent: seq<Line>)
    requires |Written(recent)| >= LOG_TAIL_LINES
    ensures LastOf(Written(past + recent), LOG_TAIL_LINES) == LastOf(Written(recent), LOG_TAIL_LINES)
  {
    WrittenAppend(past, recent);
    LastOfAppend(Written(past), Written(recent), LOG_TAIL_LINES);
  }

  lemma LastOfAppend(a: seq<Line>, b: seq<Line>, n: nat)
    requires |b| >= n
    ensures LastOf(a + b, n) == LastOf(b, n)
  {
    assert n > 0 ==> (a + b)[|a + b| - n..] == b[|b| - n..];
  }

  lemma {:induction false} WrittenAppend(a: seq<Line>, b: seq<Line>)
    ensures Written(a + b) == Written(a) + Written(b)
  {
    if b == [] {
      assert a + b == a;
    } else {
      assert (a + b)[..|a + b| - 1] == a + b[..|b| - 1];
      WrittenAppend(a, b[..|b| - 1]);
    }
  }
}
