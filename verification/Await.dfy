/** Waiting for a human (internal/service/request_service.go): how long, how the wait ends, and
    how a verdict travels inside the reply. */
module Await {
  import opened Domain
  import Lifecycle
  import SqlSplit

  const MIN_WAIT := 5

  /** A wait within the budget and not below the floor is granted as asked; anything else gets
      the whole budget, or the floor. */
  function ClampWait(requested: int, configured: int): (wait: int)
    ensures MIN_WAIT <= wait && (wait <= configured || wait == MIN_WAIT)
    ensures MIN_WAIT <= requested <= configured ==> wait == requested
    ensures requested <= 0 || requested > configured >= MIN_WAIT ==> wait == if configured < MIN_WAIT then MIN_WAIT else configured
    ensures 0 < requested < MIN_WAIT ==> wait == MIN_WAIT
  {
    var budget := if configured < MIN_WAIT then MIN_WAIT else configured;
    if requested <= 0 || requested > budget then budget
    else if requested < MIN_WAIT then MIN_WAIT
    else requested
  }

  // ---------------------------------------------------------------- the poll

  /** The request row as it is at each second: None once it is gone with its task. */
  type Row = nat -> Option<Lifecycle.RequestStatus>

  datatype Ending = Gone | Ended(status: Lifecycle.RequestStatus, timedOut: bool)

  /** The row is still there and still open at every second before `k`. */
  predicate OpenBefore(row: Row, k: nat) {
    forall j :: 0 <= j < k ==> row(j) == Some(Lifecycle.Pending)
  }

  /** `cancelled` says when the caller hung up. The poll ends at the first second at which the
      request is settled or gone, the caller has hung up, or the budget is spent; it reports
      the status of that second, and a timeout exactly when that is still pending. */
  method AwaitResponse(row: Row, cancelled: nat -> bool, requested: int, configured: int) returns (ending: Ending, at: nat)
    ensures OpenBefore(row, at) && at <= ClampWait(requested, configured)
    ensures row(at).None? ==> ending == Gone
    ensures row(at).Some? ==> ending == Ended(row(at).value, row(at).value.Pending?)
    ensures row(at) == Some(Lifecycle.Pending) ==> at > 0 && (cancelled(at) || at == ClampWait(requested, configured))
    ensures forall j :: 0 < j < at ==> !cancelled(j)
  {
    at := 0;
    if row(0).None? {
      return Gone, 0;
    }
    if !row(0).value.Pending? {
      return Ended(row(0).value, false), 0;
    }
    var budget := ClampWait(requested, configured);
    while true
      invariant 0 <= at < budget && OpenBefore(row, at + 1)
      invariant forall j :: 0 < j <= at ==> !cancelled(j)
      decreases budget - at
    {
      at := at + 1;
      var latest := row(at);
      if latest.None? {
        return Gone, at;
      }
      if !latest.value.Pending? {
        return Ended(latest.value, false), at;
      }
      if cancelled(at) || at == budget {
        return Ended(latest.value, true), at;
      }
    }
  }

  // ---------------------------------------------------------------- the verdict in the reply

  const RESULT_PREFIX := "**Result:** "

  /** The comment a reply becomes: a verdict goes in front, on a line of its own. */
  function ReplyBody(result: string, body: string): string {
    if result == "" then body else RESULT_PREFIX + result + "\n\n" + body
  }

  function FirstLine(s: string): (line: string)
    ensures |line| <= |s| && line == s[..|line|] && (forall i :: 0 <= i < |line| ==> line[i] != '\n')
    ensures |line| < |s| ==> s[|line|] == '\n'
  {
    if s == "" || s[0] == '\n' then ""
    else
      var rest := FirstLine(s[1..]);
      assert s[1..][..|rest|] == s[1..|rest| + 1];
      [s[0]] + rest
  }

  function ParseResultMarker(body: string): string {
    var n := |RESULT_PREFIX|;
    if |body| >= n && body[..n] == RESULT_PREFIX then SqlSplit.TrimSpace(FirstLine(body[n..])) else ""
  }

  predicate OneLine(s: string) {
    forall i :: 0 <= i < |s| ==> s[i] != '\n'
  }

  lemma {:induction false} FirstLineIs(line: string, rest: string)
    requires OneLine(line)
    ensures FirstLine(line + "\n" + rest) == line
    decreases |line|
  {
    var s := line + "\n" + rest;
    if line != "" {
      assert s[1..] == line[1..] + "\n" + rest;
      FirstLineIs(line[1..], rest);
    }
  }

  lemma MarkerIs(result: string, body: string)
    requires result != ""
    ensures ParseResultMarker(ReplyBody(result, body)) == SqlSplit.TrimSpace(FirstLine(result + "\n" + ("\n" + body)))
  {
    var n := |RESULT_PREFIX|;
    var reply := ReplyBody(result, body);
    assert reply == RESULT_PREFIX + (result + "\n" + ("\n" + body));
    assert reply[..n] == RESULT_PREFIX && reply[n..] == result + "\n" + ("\n" + body);
  }

  /** The verdict comes back as it was given exactly when it is one line with no blanks around
      it, whatever the rest of the reply says. */
  lemma VerdictRoundTrips(result: string, body: string)
    requires result != ""
    ensures ParseResultMarker(ReplyBody(result, body)) == result <==> OneLine(result) && SqlSplit.TrimSpace(result) == result
  {
    MarkerIs(result, body);
    if OneLine(result) {
      FirstLineIs(result, "\n" + body);
    } else {
      var line := FirstLine(result + "\n" + ("\n" + body));
      TrimKeepsOneLine(line);
    }
  }

  /** Without a verdict the reply is taken for one exactly when it looks like one. */
  lemma NoVerdict(body: string)
    ensures ParseResultMarker(ReplyBody("", body)) != "" <==>
      var n := |RESULT_PREFIX|;
      |body| >= n && body[..n] == RESULT_PREFIX && SqlSplit.TrimSpace(FirstLine(body[n..])) != ""
  {
  }

  lemma {:induction false} TrimStartKeeps(s: string)
    requires OneLine(s)
    ensures OneLine(SqlSplit.TrimStart(s))
    decreases |s|
  {
    if s != "" && SqlSplit.IsSpace(s[0]) {
      TrimStartKeeps(s[1..]);
    }
  }

  lemma {:induction false} TrimEndKeeps(s: string)
    requires OneLine(s)
    ensures OneLine(SqlSplit.TrimEnd(s))
    decreases |s|
  {
    if s != "" && SqlSplit.IsSpace(s[|s| - 1]) {
      TrimEndKeeps(s[..|s| - 1]);
    }
  }

  lemma TrimKeepsOneLine(s: string)
    requires OneLine(s)
    ensures OneLine(SqlSplit.TrimSpace(s))
  {
    TrimStartKeeps(s);
    TrimEndKeeps(SqlSplit.TrimStart(s));
  }
}
