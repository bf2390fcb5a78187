/** Splitting SQL into statements (internal/store/store.go, splitStatements). The reference
    reads the text as marked characters, toggling at every quote; the loop looks ahead for
    doubled quotes instead. The source works on bytes: every character it tests is ASCII, so
    characters serve as well. */
module SqlSplit {

  /** A character that survives, and whether it lies within quotes; a quote counts as within. */
  datatype Tok = Tok(c: char, inside: bool)

  /** What is left after the line that starts here. */
  function AfterLine(s: string): (r: string)
    ensures |r| <= |s| && (s != "" ==> |r| < |s|)
  {
    if s == "" then "" else if s[0] == '\n' then s[1..] else AfterLine(s[1..])
  }

  predicate StartsComment(s: string) {
    |s| >= 2 && s[0] == '-' && s[1] == '-'
  }

  /** Outside quotes a comment reads as a line break; nothing else is dropped. */
  function Lex(s: string, quoted: bool): seq<Tok>
    decreases |s|
  {
    if s == "" then []
    else if !quoted && StartsComment(s) then [Tok('\n', false)] + Lex(AfterLine(s), false)
    else if s[0] == '\'' then [Tok('\'', true)] + Lex(s[1..], !quoted)
    else [Tok(s[0], quoted)] + Lex(s[1..], quoted)
  }

  predicate IsSpace(c: char) {
    var n := c as int;
    9 <= n <= 13 || n == 32 || n == 0x85 || n == 0xA0 || n == 0x1680 || 0x2000 <= n <= 0x200A
    || n == 0x2028 || n == 0x2029 || n == 0x202F || n == 0x205F || n == 0x3000
  }

  predicate IsBreak(t: Tok) { t.c == ';' && !t.inside }

  function TrimLeft(ts: seq<Tok>): (r: seq<Tok>)
    ensures |r| <= |ts|
  {
    if ts != [] && IsSpace(ts[0].c) then TrimLeft(ts[1..]) else ts
  }

  function TrimRight(ts: seq<Tok>): (r: seq<Tok>)
    ensures |r| <= |ts|
  {
    if ts != [] && IsSpace(ts[|ts| - 1].c) then TrimRight(ts[..|ts| - 1]) else ts
  }

  function Trim(ts: seq<Tok>): seq<Tok> {
    TrimRight(TrimLeft(ts))
  }

  function Emit(cur: seq<Tok>): seq<seq<Tok>> {
    if Trim(cur) == [] then [] else [Trim(cur)]
  }

  /** The statements of `cur + ts`, where `cur` is the one being collected. */
  function Units(cur: seq<Tok>, ts: seq<Tok>): seq<seq<Tok>>
    decreases |ts|
  {
    if ts == [] then Emit(cur)
    else if IsBreak(ts[0]) then Emit(cur) + Units([], ts[1..])
    else Units(cur + [ts[0]], ts[1..])
  }

  function Text(ts: seq<Tok>): (s: string)
    ensures |s| == |ts| && forall i :: 0 <= i < |ts| ==> s[i] == ts[i].c
  {
    if ts == [] then "" else [ts[0].c] + Text(ts[1..])
  }

  function Texts(us: seq<seq<Tok>>): (ss: seq<string>)
    ensures |ss| == |us| && forall i :: 0 <= i < |us| ==> ss[i] == Text(us[i])
  {
    if us == [] then [] else [Text(us[0])] + Texts(us[1..])
  }

  function Split(sql: string): seq<string> {
    Texts(Units([], Lex(sql, false)))
  }

  function Join(ss: seq<string>): string {
    if ss == [] then "" else if |ss| == 1 then ss[0] else ss[0] + ";" + Join(ss[1..])
  }

  // ---------------------------------------------------------------- reading back

  /** `ts` could have been read from its own text, starting `quoted`. */
  predicate Coherent(ts: seq<Tok>, quoted: bool)
    decreases |ts|
  {
    if ts == [] then true
    else if ts[0].c == '\'' then ts[0].inside && Coherent(ts[1..], !quoted)
    else
      && ts[0].inside == quoted
      && !(!quoted && ts[0].c == '-' && |ts| > 1 && ts[1].c == '-')
      && Coherent(ts[1..], quoted)
  }

  function EndsQuoted(ts: seq<Tok>, quoted: bool): bool
    decreases |ts|
  {
    if ts == [] then quoted else EndsQuoted(ts[1..], if ts[0].c == '\'' then !quoted else quoted)
  }

  /** What is read is coherent: outside quotes no comment survives. */
  lemma {:induction false} LexIsCoherent(s: string, quoted: bool)
    ensures Coherent(Lex(s, quoted), quoted)
    decreases |s|
  {
    if s == "" {
    } else if !quoted && StartsComment(s) {
      LexIsCoherent(AfterLine(s), false);
      assert Lex(s, quoted)[1..] == Lex(AfterLine(s), false);
    } else if s[0] == '\'' {
      LexIsCoherent(s[1..], !quoted);
      assert Lex(s, quoted)[1..] == Lex(s[1..], !quoted);
    } else {
      LexIsCoherent(s[1..], quoted);
      assert Lex(s, quoted)[1..] == Lex(s[1..], quoted);
      if s[0] == '-' && !quoted && |s| > 1 {
        assert s[1..][0] == s[1];
      }
    }
  }

  /** A coherent reading is what reading its text gives. */
  lemma {:induction false} Relex(ts: seq<Tok>, quoted: bool)
    requires Coherent(ts, quoted)
    ensures Lex(Text(ts), quoted) == ts
    decreases |ts|
  {
    if ts != [] {
      var s := Text(ts);
      assert s[1..] == Text(ts[1..]);
      if ts[0].c == '\'' {
        Relex(ts[1..], !quoted);
      } else {
        Relex(ts[1..], quoted);
        assert |ts| > 1 ==> s[1] == ts[1].c;
      }
      assert ts == [ts[0]] + ts[1..];
    }
  }

  lemma {:induction false} CoherentAppend(a: seq<Tok>, b: seq<Tok>, quoted: bool)
    ensures EndsQuoted(a + b, quoted) == EndsQuoted(b, EndsQuoted(a, quoted))
    ensures Coherent(a + b, quoted) ==> Coherent(a, quoted) && Coherent(b, EndsQuoted(a, quoted))
    ensures Coherent(a, quoted) && Coherent(b, EndsQuoted(a, quoted)) && (b == [] || b[0].c != '-') ==> Coherent(a + b, quoted)
    decreases |a|
  {
    if a == [] {
      assert a + b == b;
    } else {
      assert (a + b)[1..] == a[1..] + b;
      CoherentAppend(a[1..], b, if a[0].c == '\'' then !quoted else quoted);
      assert |a| > 1 ==> (a + b)[1] == a[1];
      assert |a| == 1 && b != [] ==> (a + b)[1] == b[0];
    }
  }

  // ---------------------------------------------------------------- trimming

  predicate Bare(ts: seq<Tok>) {
    ts != [] && !IsSpace(ts[0].c) && !IsSpace(ts[|ts| - 1].c)
  }

  predicate NoQuotes(ts: seq<Tok>) {
    forall i :: 0 <= i < |ts| ==> ts[i].c != '\''
  }

  lemma {:induction false} NoQuotesKeep(ts: seq<Tok>, quoted: bool)
    requires NoQuotes(ts)
    ensures EndsQuoted(ts, quoted) == quoted
    decreases |ts|
  {
    if ts != [] {
      NoQuotesKeep(ts[1..], quoted);
    }
  }

  lemma {:induction false} TrimLeftSplits(ts: seq<Tok>) returns (a: seq<Tok>)
    ensures ts == a + TrimLeft(ts) && NoQuotes(a)
    ensures TrimLeft(ts) != [] ==> !IsSpace(TrimLeft(ts)[0].c)
  {
    if ts != [] && IsSpace(ts[0].c) {
      var rest := TrimLeftSplits(ts[1..]);
      a := [ts[0]] + rest;
      assert ts == [ts[0]] + ts[1..];
    } else {
      a := [];
    }
  }

  lemma {:induction false} TrimRightSplits(ts: seq<Tok>) returns (b: seq<Tok>)
    ensures ts == TrimRight(ts) + b && NoQuotes(b)
    ensures TrimRight(ts) != [] ==> !IsSpace(TrimRight(ts)[|TrimRight(ts)| - 1].c)
  {
    if ts != [] && IsSpace(ts[|ts| - 1].c) {
      var rest := TrimRightSplits(ts[..|ts| - 1]);
      b := rest + [ts[|ts| - 1]];
      assert ts == ts[..|ts| - 1] + [ts[|ts| - 1]];
    } else {
      b := [];
    }
  }

  lemma Together<T>(a: seq<T>, b: seq<T>, c: seq<T>)
    ensures a + (b + c) == a + b + c
  {
  }

  /** Trimming cuts blanks off both ends and leaves the quotes alone. */
  lemma TrimSplits(ts: seq<Tok>) returns (a: seq<Tok>, b: seq<Tok>)
    ensures ts == a + Trim(ts) + b && NoQuotes(a) && NoQuotes(b)
    ensures Trim(ts) == [] || Bare(Trim(ts))
  {
    a := TrimLeftSplits(ts);
    var left := TrimLeft(ts);
    b := TrimRightSplits(left);
    if Trim(ts) != [] {
      assert left[0] == Trim(ts)[0];
    }
    Together(a, Trim(ts), b);
  }

  lemma BareIsTrimmed(ts: seq<Tok>)
    requires Bare(ts)
    ensures Trim(ts) == ts
  {
  }

  predicate NoBreaks(ts: seq<Tok>) {
    forall i :: 0 <= i < |ts| ==> !IsBreak(ts[i])
  }

  /** A statement as it is kept: trimmed, of one piece, readable on its own. */
  predicate Unit(u: seq<Tok>) {
    Bare(u) && NoBreaks(u) && Coherent(u, false)
  }

  lemma EmitsUnits(cur: seq<Tok>)
    requires Coherent(cur, false) && NoBreaks(cur)
    ensures forall u :: u in Emit(cur) ==> Unit(u) && EndsQuoted(u, false) == EndsQuoted(cur, false)
  {
    if Trim(cur) != [] {
      var a, b := TrimSplits(cur);
      TrimmedIsUnit(cur, a, Trim(cur), b);
    }
  }

  lemma TrimmedIsUnit(cur: seq<Tok>, a: seq<Tok>, u: seq<Tok>, b: seq<Tok>)
    requires cur == a + u + b && Coherent(cur, false) && NoBreaks(cur) && NoQuotes(a) && NoQuotes(b) && Bare(u)
    ensures Unit(u) && EndsQuoted(u, false) == EndsQuoted(cur, false)
  {
    assert cur == a + (u + b);
    NoQuotesKeep(a, false);
    CoherentAppend(a, u + b, false);
    CoherentAppend(u, b, false);
    NoQuotesKeep(b, EndsQuoted(u, false));
    forall i | 0 <= i < |u|
      ensures !IsBreak(u[i])
    {
      assert u[i] == cur[|a| + i];
    }
  }

  /** Every statement but the last ends outside quotes. */
  predicate Kept(us: seq<seq<Tok>>) {
    && (forall k :: 0 <= k < |us| ==> Unit(us[k]))
    && (forall k :: 0 <= k < |us| - 1 ==> !EndsQuoted(us[k], false))
  }

  lemma {:induction false} UnitsAreKept(cur: seq<Tok>, ts: seq<Tok>)
    requires Coherent(cur + ts, false) && NoBreaks(cur)
    ensures Kept(Units(cur, ts))
    decreases |ts|
  {
    CoherentAppend(cur, ts, false);
    if ts == [] {
      assert cur + ts == cur;
      EmitsUnits(cur);
    } else if IsBreak(ts[0]) {
      EmitsUnits(cur);
      assert ts == [ts[0]] + ts[1..];
      CoherentAppend([ts[0]], ts[1..], EndsQuoted(cur, false));
      assert [ts[0]][1..] == [];
      assert [] + ts[1..] == ts[1..];
      UnitsAreKept([], ts[1..]);
    } else {
      assert cur + ts == cur + [ts[0]] + ts[1..];
      UnitsAreKept(cur + [ts[0]], ts[1..]);
    }
  }

  // ---------------------------------------------------------------- joining

  const BREAK := Tok(';', false)

  function JoinUnits(us: seq<seq<Tok>>): seq<Tok> {
    if us == [] then [] else if |us| == 1 then us[0] else us[0] + [BREAK] + JoinUnits(us[1..])
  }

  lemma {:induction false} TextAppend(a: seq<Tok>, b: seq<Tok>)
    ensures Text(a + b) == Text(a) + Text(b)
  {
    if a == [] {
      assert a + b == b;
    } else {
      assert (a + b)[1..] == a[1..] + b;
      TextAppend(a[1..], b);
    }
  }

  lemma {:induction false} JoinIsText(us: seq<seq<Tok>>)
    ensures Join(Texts(us)) == Text(JoinUnits(us))
  {
    if |us| > 1 {
      assert Texts(us)[1..] == Texts(us[1..]);
      JoinIsText(us[1..]);
      TextAppend(us[0] + [BREAK], JoinUnits(us[1..]));
      TextAppend(us[0], [BREAK]);
      assert Text([BREAK]) == ";";
    }
  }

  lemma {:induction false} JoinIsCoherent(us: seq<seq<Tok>>)
    requires Kept(us)
    ensures Coherent(JoinUnits(us), false)
  {
    if |us| == 1 {
      assert Unit(us[0]);
    } else if us != [] {
      var rest := us[1..];
      assert Unit(us[0]) && !EndsQuoted(us[0], false);
      assert Kept(rest) by {
        assert forall k :: 0 <= k < |rest| ==> rest[k] == us[k + 1];
      }
      JoinIsCoherent(rest);
      var tail := [BREAK] + JoinUnits(rest);
      assert tail[1..] == JoinUnits(rest);
      CoherentAppend(us[0], tail, false);
      assert us[0] + [BREAK] + JoinUnits(rest) == us[0] + tail;
    }
  }

  lemma {:induction false} CollectUnit(cur: seq<Tok>, u: seq<Tok>, ts: seq<Tok>)
    requires NoBreaks(u)
    ensures Units(cur, u + ts) == Units(cur + u, ts)
    decreases |u|
  {
    if u == [] {
      assert u + ts == ts && cur + u == cur;
    } else {
      assert (u + ts)[1..] == u[1..] + ts && (u + ts)[0] == u[0];
      CollectUnit(cur + [u[0]], u[1..], ts);
      assert cur + [u[0]] + u[1..] == cur + u;
    }
  }

  lemma {:induction false} JoinSplits(us: seq<seq<Tok>>)
    requires Kept(us)
    ensures Units([], JoinUnits(us)) == us
  {
    if us == [] {
      assert Trim([]) == [];
    } else {
      assert Unit(us[0]);
      BareIsTrimmed(us[0]);
      assert [] + us[0] == us[0];
      if |us| == 1 {
        CollectUnit([], us[0], []);
        assert us[0] + [] == us[0];
      } else {
        var rest := us[1..];
        assert Kept(rest) by {
          assert forall k :: 0 <= k < |rest| ==> rest[k] == us[k + 1];
        }
        JoinSplits(rest);
        var tail := [BREAK] + JoinUnits(rest);
        assert tail[1..] == JoinUnits(rest);
        CollectUnit([], us[0], tail);
        assert us[0] + [BREAK] + JoinUnits(rest) == us[0] + tail;
      }
      assert us == [us[0]] + us[1..];
    }
  }

  // ---------------------------------------------------------------- the promises

  /** Joining the statements with semicolons and splitting again changes nothing. */
  lemma SplitIsIdempotent(sql: string)
    ensures Split(Join(Split(sql))) == Split(sql)
  {
    var ts := Lex(sql, false);
    var us := Units([], ts);
    LexIsCoherent(sql, false);
    assert [] + ts == ts;
    UnitsAreKept([], ts);
    JoinIsText(us);
    JoinIsCoherent(us);
    Relex(JoinUnits(us), false);
    JoinSplits(us);
  }

  /** What of `ts` must come out again: everything but white space and separators. */
  function Solid(ts: seq<Tok>): seq<Tok> {
    if ts == [] then []
    else (if IsSpace(ts[0].c) || (ts[0].c == ';' && !ts[0].inside) then [] else [ts[0]]) + Solid(ts[1..])
  }

  function Flat(us: seq<seq<Tok>>): seq<Tok> {
    if us == [] then [] else us[0] + Flat(us[1..])
  }

  lemma {:induction false} SolidAppend(a: seq<Tok>, b: seq<Tok>)
    ensures Solid(a + b) == Solid(a) + Solid(b)
  {
    if a == [] {
      assert a + b == b;
    } else {
      assert (a + b)[1..] == a[1..] + b;
      SolidAppend(a[1..], b);
    }
  }

  lemma {:induction false} TrimLeftKeeps(ts: seq<Tok>)
    ensures Solid(TrimLeft(ts)) == Solid(ts)
  {
    if ts != [] && IsSpace(ts[0].c) {
      TrimLeftKeeps(ts[1..]);
    }
  }

  lemma {:induction false} TrimRightKeeps(ts: seq<Tok>)
    ensures Solid(TrimRight(ts)) == Solid(ts)
  {
    if ts != [] && IsSpace(ts[|ts| - 1].c) {
      var front, last := ts[..|ts| - 1], ts[|ts| - 1];
      TrimRightKeeps(front);
      assert ts == front + [last];
      SolidAppend(front, [last]);
    }
  }

  lemma EmitKeeps(cur: seq<Tok>)
    ensures Solid(Flat(Emit(cur))) == Solid(cur)
  {
    TrimLeftKeeps(cur);
    TrimRightKeeps(TrimLeft(cur));
    if Trim(cur) != [] {
      assert Emit(cur)[1..] == [];
      assert Trim(cur) + [] == Trim(cur);
    }
  }

  lemma {:induction false} FlatAppend(a: seq<seq<Tok>>, b: seq<seq<Tok>>)
    ensures Flat(a + b) == Flat(a) + Flat(b)
  {
    if a == [] {
      assert a + b == b;
    } else {
      assert (a + b)[1..] == a[1..] + b;
      FlatAppend(a[1..], b);
      assert a[0] + (Flat(a[1..]) + Flat(b)) == (a[0] + Flat(a[1..])) + Flat(b);
    }
  }

  lemma BreakKeeps(cur: seq<Tok>, ts: seq<Tok>, rest: seq<seq<Tok>>)
    requires ts != [] && IsBreak(ts[0]) && Solid(Flat(rest)) == Solid(ts[1..])
    ensures Solid(Flat(Emit(cur) + rest)) == Solid(cur + ts)
  {
    EmitKeeps(cur);
    FlatAppend(Emit(cur), rest);
    SolidAppend(Flat(Emit(cur)), Flat(rest));
    SolidAppend(cur, ts);
    BreakIsNotSolid(ts);
  }

  lemma BreakIsNotSolid(ts: seq<Tok>)
    requires ts != [] && IsBreak(ts[0])
    ensures Solid(ts) == Solid(ts[1..])
  {
  }

  lemma {:induction false} UnitsKeep(cur: seq<Tok>, ts: seq<Tok>)
    ensures Solid(Flat(Units(cur, ts))) == Solid(cur + ts)
    decreases |ts|
  {
    if ts == [] {
      EmitKeeps(cur);
      assert cur + ts == cur;
    } else if IsBreak(ts[0]) {
      UnitsKeep([], ts[1..]);
      assert [] + ts[1..] == ts[1..];
      BreakKeeps(cur, ts, Units([], ts[1..]));
    } else {
      UnitsKeep(cur + [ts[0]], ts[1..]);
      assert cur + [ts[0]] + ts[1..] == cur + ts;
    }
  }

  /** No character is lost, moved or made up: in order, the statements hold exactly what was
      read, but for white space and the separators. */
  lemma NothingIsLost(sql: string)
    ensures Solid(Flat(Units([], Lex(sql, false)))) == Solid(Lex(sql, false))
    ensures |Split(sql)| == |Units([], Lex(sql, false))|
    ensures forall k :: 0 <= k < |Split(sql)| ==> Split(sql)[k] == Text(Units([], Lex(sql, false))[k])
  {
    UnitsKeep([], Lex(sql, false));
    assert [] + Lex(sql, false) == Lex(sql, false);
  }

  /** And what was read is the text itself, as long as it holds no two dashes in a row. */
  lemma {:induction false} ReadAsWritten(s: string, quoted: bool)
    requires forall i :: 0 <= i < |s| - 1 ==> s[i] != '-' || s[i + 1] != '-'
    ensures Text(Lex(s, quoted)) == s
  {
    if s != "" {
      assert s == [s[0]] + s[1..];
      ReadAsWritten(s[1..], if s[0] == '\'' then !quoted else quoted);
      assert Lex(s, quoted)[1..] == Lex(s[1..], if s[0] == '\'' then !quoted else quoted);
    }
  }

  /** A statement holds no comment and no semicolon outside its quotes, and no blank at
      either end; reading it on its own loses nothing. */
  lemma StatementsAreClean(sql: string, k: nat)
    requires k < |Split(sql)|
    ensures var s := Split(sql)[k];
      && s != "" && !IsSpace(s[0]) && !IsSpace(s[|s| - 1])
      && Text(Lex(s, false)) == s && NoBreaks(Lex(s, false))
      && forall i :: 0 <= i < |s| - 1 && s[i] == '-' && s[i + 1] == '-' ==> Lex(s, false)[i].inside
  {
    var ts := Lex(sql, false);
    LexIsCoherent(sql, false);
    assert [] + ts == ts;
    UnitsAreKept([], ts);
    var u := Units([], ts)[k];
    assert Unit(u);
    Relex(u, false);
    forall i | 0 <= i < |u| - 1 && u[i].c == '-' && u[i + 1].c == '-'
      ensures u[i].inside
    {
      DashesAreQuoted(u, false, i);
    }
  }

  lemma {:induction false} DashesAreQuoted(ts: seq<Tok>, quoted: bool, i: nat)
    requires Coherent(ts, quoted) && i < |ts| - 1 && ts[i].c == '-' && ts[i + 1].c == '-'
    ensures ts[i].inside
    decreases |ts|
  {
    if i > 0 {
      DashesAreQuoted(ts[1..], if ts[0].c == '\'' then !quoted else quoted, i - 1);
    }
  }

  predicate OneLine(c: string) {
    forall i :: 0 <= i < |c| ==> c[i] != '\n'
  }

  lemma {:induction false} AfterComment(c: string, rest: string)
    requires OneLine(c)
    ensures AfterLine(c + "\n" + rest) == rest
  {
    if c == "" {
      assert c + "\n" + rest == "\n" + rest;
    } else {
      assert (c + "\n" + rest)[1..] == c[1..] + "\n" + rest;
      AfterComment(c[1..], rest);
    }
  }

  lemma {:induction false} AfterLineOf(a: string, x: string)
    ensures AfterLine(a + x) == if OneLine(a) then AfterLine(x) else AfterLine(a) + x
  {
    if a == "" {
      assert a + x == x;
    } else {
      assert (a + x)[1..] == a[1..] + x;
      if a[0] != '\n' {
        AfterLineOf(a[1..], x);
        assert OneLine(a) <==> OneLine(a[1..]);
      } else {
        assert !OneLine(a);
      }
    }
  }

  /** What a comment says never matters, neither to the quotes nor to anything else: after a
      text that ends outside quotes, any two comments on a line of their own read alike. */
  lemma CommentTextIsIgnored(a: string, c: string, d: string, b: string)
    requires !EndsQuoted(Lex(a, false), false) && OneLine(c) && OneLine(d)
    ensures Split(a + ("--" + c + "\n" + b)) == Split(a + ("--" + d + "\n" + b))
  {
    SameReading(a, c, d, b, false);
  }

  lemma {:induction false} SameReading(a: string, c: string, d: string, b: string, quoted: bool)
    requires !EndsQuoted(Lex(a, quoted), quoted) && OneLine(c) && OneLine(d)
    ensures Lex(a + ("--" + c + "\n" + b), quoted) == Lex(a + ("--" + d + "\n" + b), quoted)
    decreases |a|
  {
    var x, y := "--" + c + "\n" + b, "--" + d + "\n" + b;
    assert x == ("--" + c) + "\n" + b && y == ("--" + d) + "\n" + b;
    AfterComment("--" + c, b);
    AfterComment("--" + d, b);
    if a == "" {
      assert a + x == x && a + y == y;
      assert StartsComment(x) && StartsComment(y);
    } else {
      assert (a + x)[1..] == a[1..] + x && (a + y)[1..] == a[1..] + y;
      if !quoted && StartsComment(a) {
        AfterLineOf(a, x);
        AfterLineOf(a, y);
        assert StartsComment(a + x) && StartsComment(a + y);
        if !OneLine(a) {
          assert Lex(a, quoted)[1..] == Lex(AfterLine(a), false);
          SameReading(AfterLine(a), c, d, b, false);
        }
      } else if !quoted && a == "-" {
        AfterLineOf(a, x);
        AfterLineOf(a, y);
        assert StartsComment(a + x) && StartsComment(a + y);
      } else {
        assert |a| > 1 ==> (a + x)[1] == a[1] && (a + y)[1] == a[1];
        assert (a + x)[0] == a[0] && (a + y)[0] == a[0];
        var q := if a[0] == '\'' then !quoted else quoted;
        assert Lex(a, quoted)[1..] == Lex(a[1..], q);
        SameReading(a[1..], c, d, b, q);
      }
    }
  }

  // ---------------------------------------------------------------- the loop

  function TrimSpace(s: string): string {
    TrimEnd(TrimStart(s))
  }

  function TrimStart(s: string): string {
    if s != "" && IsSpace(s[0]) then TrimStart(s[1..]) else s
  }

  function TrimEnd(s: string): string {
    if s != "" && IsSpace(s[|s| - 1]) then TrimEnd(s[..|s| - 1]) else s
  }

  lemma {:induction false} TrimStartIsText(ts: seq<Tok>)
    ensures TrimStart(Text(ts)) == Text(TrimLeft(ts))
  {
    if ts != [] && IsSpace(ts[0].c) {
      assert Text(ts)[1..] == Text(ts[1..]);
      TrimStartIsText(ts[1..]);
    }
  }

  lemma TextFront(ts: seq<Tok>)
    requires ts != []
    ensures Text(ts)[..|ts| - 1] == Text(ts[..|ts| - 1])
  {
    var front, last := ts[..|ts| - 1], ts[|ts| - 1];
    TextAppend(front, [last]);
    assert front + [last] == ts;
    var f, l := Text(front), Text([last]);
    assert (f + l)[..|f|] == f;
  }

  lemma {:induction false} TrimEndIsText(ts: seq<Tok>)
    ensures TrimEnd(Text(ts)) == Text(TrimRight(ts))
  {
    if ts != [] && IsSpace(ts[|ts| - 1].c) {
      TextFront(ts);
      TrimEndIsText(ts[..|ts| - 1]);
    }
  }

  lemma TrimIsText(ts: seq<Tok>)
    ensures TrimSpace(Text(ts)) == Text(Trim(ts))
  {
    TrimStartIsText(ts);
    TrimEndIsText(TrimLeft(ts));
  }

  lemma {:induction false} TextsAppend(a: seq<seq<Tok>>, b: seq<seq<Tok>>)
    ensures Texts(a + b) == Texts(a) + Texts(b)
  {
    if a == [] {
      assert a + b == b;
    } else {
      assert (a + b)[1..] == a[1..] + b;
      TextsAppend(a[1..], b);
    }
  }

  lemma EmitText(cur: seq<Tok>)
    ensures var s := TrimSpace(Text(cur)); Texts(Emit(cur)) == if s != "" then [s] else []
  {
    TrimIsText(cur);
    if Trim(cur) != [] {
      assert Emit(cur)[1..] == [];
    }
  }

  lemma Assoc(a: seq<string>, b: seq<string>, c: seq<string>)
    ensures a + (b + c) == (a + b) + c
  {
  }

  /** A boundary moves the collected statement to the list. */
  lemma FlushReads(sql: string, stmts: seq<string>, cur: seq<Tok>, todo: seq<Tok>)
    requires todo != [] && IsBreak(todo[0]) && Reads(sql, stmts, cur, todo)
    ensures Reads(sql, stmts + Texts(Emit(cur)), [], todo[1..])
  {
    var rest := Units([], todo[1..]);
    assert Units(cur, todo) == Emit(cur) + rest;
    TextsAppend(Emit(cur), rest);
    Assoc(stmts, Texts(Emit(cur)), Texts(rest));
  }

  /** One step of the reading. */
  lemma LexAt(sql: string, i: nat, quoted: bool)
    requires i < |sql|
    ensures var rest := sql[i..];
      Lex(rest, quoted)
      == if !quoted && StartsComment(rest) then [Tok('\n', false)] + Lex(AfterLine(rest), false)
         else if sql[i] == '\'' then [Tok('\'', true)] + Lex(sql[i + 1..], !quoted)
         else [Tok(sql[i], quoted)] + Lex(sql[i + 1..], quoted)
    ensures StartsComment(sql[i..]) <==> i + 1 < |sql| && sql[i] == '-' && sql[i + 1] == '-'
  {
    assert sql[i..][1..] == sql[i + 1..];
  }

  /** `stmts` are the statements read, `cur` is being collected, `todo` is still to come. */
  predicate Reads(sql: string, stmts: seq<string>, cur: seq<Tok>, todo: seq<Tok>) {
    stmts + Texts(Units(cur, todo)) == Split(sql)
  }

  method SplitStatements(sql: string) returns (stmts: seq<string>)
    ensures stmts == Split(sql)
  {
    stmts := [];
    var current, inQuote, i := "", false, 0;
    ghost var cur, todo := [], Lex(sql, false);
    assert sql[0..] == sql;
    while i < |sql|
      invariant i <= |sql| && current == Text(cur) && todo == Lex(sql[i..], inQuote)
      invariant Reads(sql, stmts, cur, todo)
    {
      var c := sql[i];
      LexAt(sql, i, inQuote);
      if !inQuote && c == '-' && i + 1 < |sql| && sql[i + 1] == '-' {
        current, cur, todo := Push(sql, stmts, current, '\n', cur, todo);
        i := SkipLine(sql, i);
      } else if c == '\'' {
        if inQuote && i + 1 < |sql| && sql[i + 1] == '\'' {
          LexAt(sql, i + 1, false);
          current, cur, todo := Push(sql, stmts, current, c, cur, todo);
          current, cur, todo := Push(sql, stmts, current, c, cur, todo);
          i := i + 2;
        } else {
          inQuote := !inQuote;
          current, cur, todo := Push(sql, stmts, current, c, cur, todo);
          i := i + 1;
        }
      } else if c == ';' && !inQuote {
        FlushReads(sql, stmts, cur, todo);
        stmts := Flush(stmts, current, cur);
        current, cur, todo, i := "", [], todo[1..], i + 1;
      } else {
        current, cur, todo := Push(sql, stmts, current, c, cur, todo);
        i := i + 1;
      }
    }
    stmts := Flush(stmts, current, cur);
  }

  /** Write one character that is not a boundary. */
  method Push(sql: string, stmts: seq<string>, current: string, c: char, ghost cur: seq<Tok>, ghost todo: seq<Tok>)
    returns (current': string, ghost cur': seq<Tok>, ghost todo': seq<Tok>)
    requires current == Text(cur) && todo != [] && todo[0].c == c && !IsBreak(todo[0]) && Reads(sql, stmts, cur, todo)
    ensures current' == current + [c] == Text(cur') && todo' == todo[1..] && Reads(sql, stmts, cur', todo')
  {
    current' := current + [c];
    cur', todo' := cur + [todo[0]], todo[1..];
    TextAppend(cur, [todo[0]]);
  }

  /** End a statement: nothing is kept of one that is blank. */
  method Flush(stmts: seq<string>, current: string, ghost cur: seq<Tok>) returns (stmts': seq<string>)
    requires current == Text(cur)
    ensures stmts' == stmts + Texts(Emit(cur))
  {
    var s := TrimSpace(current);
    EmitText(cur);
    stmts' := stmts;
    if s != "" {
      stmts' := stmts + [s];
    }
  }

  /** Move past the end of the line, or to the end of the text. */
  method SkipLine(sql: string, start: nat) returns (i: nat)
    requires start < |sql|
    ensures start < i <= |sql| && sql[i..] == AfterLine(sql[start..])
  {
    i := start;
    while i < |sql| && sql[i] != '\n'
      invariant start <= i <= |sql| && AfterLine(sql[i..]) == AfterLine(sql[start..])
    {
      assert sql[i..][1..] == sql[i + 1..];
      i := i + 1;
    }
    if i < |sql| {
      assert sql[i..][1..] == sql[i + 1..];
      i := i + 1;
    }
  }
}
