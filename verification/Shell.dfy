/** The command a human pastes to reattach to a session (internal/claude/resume.go), and a
    reader for it: the token recognition and quoting of IEEE Std 1003.1-2017, Shell and
    Utilities volume, sections 2.2 and 2.3, for the characters such a command can hold
    outside quotes. */
module Shell {
  import opened Domain

  // ---------------------------------------------------------------- printing

  /** `s` with every quote closed, escaped and reopened. */
  function Escaped(s: string): string {
    if s == "" then "" else (if s[0] == '\'' then "'\\''" else [s[0]]) + Escaped(s[1..])
  }

  function ShellQuote(s: string): string {
    "'" + Escaped(s) + "'"
  }

  datatype Target = Target(session: string, workDir: string, configDir: string, tokenCommand: string)

  const CONFIG_NAME := "CLAUDE_CONFIG_DIR="

  method ResumeCommand(t: Target) returns (b: string)
    ensures b == Command(t)
  {
    if t.session == "" {
      return "";
    }
    b := "";
    if t.workDir != "" {
      b := b + "cd ";
      b := b + ShellQuote(t.workDir);
      b := b + " && ";
      Appended("", "cd ", ShellQuote(t.workDir), " && ");
    }
    ghost var dir := b;
    assert dir == Directory(t);
    if t.configDir != "" {
      b := b + CONFIG_NAME;
      b := b + ShellQuote(t.configDir);
      b := b + " ";
      Appended(dir, CONFIG_NAME, ShellQuote(t.configDir), " ");
      ghost var env := b;
      if t.tokenCommand != "" {
        b := b + TOKEN_OPEN;
        b := b + t.tokenCommand;
        b := b + TOKEN_CLOSE;
        Appended(env, TOKEN_OPEN, t.tokenCommand, TOKEN_CLOSE);
      }
      assert b == env + Token(t);
      Assoc(dir, CONFIG_NAME + ShellQuote(t.configDir) + " ", Token(t));
    }
    ghost var env := b;
    assert env == Directory(t) + Environment(t);
    b := b + "claude --resume ";
    b := b + ShellQuote(t.session);
    Assoc(env, "claude --resume ", ShellQuote(t.session));
  }

  lemma Assoc(a: string, b: string, c: string)
    ensures a + (b + c) == (a + b) + c
  {
  }

  lemma Appended(b: string, x: string, y: string, z: string)
    ensures b + x + y + z == b + (x + y + z)
    ensures b == "" ==> b + x + y + z == x + y + z
  {
  }

  const TOKEN_OPEN := "CLAUDE_CODE_OAUTH_TOKEN=\"$("
  const TOKEN_CLOSE := ")\" "

  function Token(t: Target): string {
    if t.tokenCommand == "" then "" else TOKEN_OPEN + t.tokenCommand + TOKEN_CLOSE
  }

  function Directory(t: Target): string {
    if t.workDir == "" then "" else "cd " + ShellQuote(t.workDir) + " && "
  }

  function Environment(t: Target): string {
    if t.configDir == "" then "" else CONFIG_NAME + ShellQuote(t.configDir) + " " + Token(t)
  }

  /** The whole command: directory, environment, resume. */
  function Command(t: Target): string {
    if t.session == "" then ""
    else Directory(t) + Environment(t) + ("claude --resume " + ShellQuote(t.session))
  }

  // ---------------------------------------------------------------- reading

  /** `plain` counts the leading characters of a word that were not quoted; only those can
      make it an assignment. */
  datatype Word = And | Word(value: string, plain: nat)

  datatype Mode =
    | Between
    | InWord(value: string, plain: nat, quoted: bool)
    | InQuotes(value: string, plain: nat)

  function Value(m: Mode): string { if m.Between? then "" else m.value }

  function Plain(m: Mode): nat { if m.Between? then 0 else m.plain }

  predicate Quoted(m: Mode) { m.InQuotes? || (m.InWord? && m.quoted) }

  function Emit(m: Mode): seq<Word> {
    if m.InWord? then [Word(m.value, m.plain)] else []
  }

  function Then(ws: seq<Word>, rest: Option<seq<Word>>): Option<seq<Word>> {
    if rest.Some? then Some(ws + rest.value) else None
  }

  /** The characters that mean something of their own outside quotes, other than those the
      reader deals with. It gives up on them. */
  predicate Special(c: char) {
    c in "|;<>()$`\"\n*?[#~%!{}"
  }

  predicate Ordinary(c: char) {
    !Special(c) && c != ' ' && c != '\t' && c != '&' && c != '\'' && c != '\\'
  }

  /** Read `s` on from `m`; None for a quote that is not closed or a character the reader does
      not know. */
  function Read(s: string, m: Mode): Option<seq<Word>>
    decreases |s|
  {
    if s == "" then (if m.InQuotes? then None else Some(Emit(m)))
    else if m.InQuotes? then
      if s[0] == '\'' then Read(s[1..], InWord(m.value, m.plain, true))
      else Read(s[1..], InQuotes(m.value + [s[0]], m.plain))
    else if s[0] == ' ' || s[0] == '\t' then Then(Emit(m), Read(s[1..], Between))
    else if s[0] == '&' then
      if |s| > 1 && s[1] == '&' then Then(Emit(m) + [And], Read(s[2..], Between)) else None
    else if s[0] == '\'' then Read(s[1..], InQuotes(Value(m), Plain(m)))
    else if s[0] == '\\' then
      if |s| < 2 then None
      else if s[1] == '\n' then Read(s[2..], m)
      else Read(s[2..], InWord(Value(m) + [s[1]], Plain(m), true))
    else if Special(s[0]) then None
    else Read(s[1..], InWord(Value(m) + [s[0]], if Quoted(m) then Plain(m) else Plain(m) + 1, Quoted(m)))
  }

  function Words(s: string): Option<seq<Word>> {
    Read(s, Between)
  }

  // ---------------------------------------------------------------- quoting is undone

  lemma {:induction false} EscapedReads(x: string, rest: string, v: string, p: nat)
    ensures Read(Escaped(x) + "'" + rest, InQuotes(v, p)) == Read(rest, InWord(v + x, p, true))
    decreases |x|
  {
    if x == "" {
      assert Escaped(x) + "'" + rest == "'" + rest;
      assert ("'" + rest)[1..] == rest && v + x == v;
    } else {
      var more := Escaped(x[1..]) + "'" + rest;
      EscapedReads(x[1..], rest, v + [x[0]], p);
      assert v + [x[0]] + x[1..] == v + x;
      if x[0] == '\'' {
        assert Escaped(x) + "'" + rest == "'\\''" + more;
        QuoteInQuotes(more, v, p);
      } else {
        assert Escaped(x) + "'" + rest == [x[0]] + more;
        assert ([x[0]] + more)[1..] == more;
      }
    }
  }

  lemma QuoteInQuotes(more: string, v: string, p: nat)
    ensures Read("'\\''" + more, InQuotes(v, p)) == Read(more, InQuotes(v + "'", p))
  {
    var s := "'\\''" + more;
    assert s[1..][2..] == "'" + more && s[1..][0] == '\\' && s[1..][1] == '\'';
    assert ("'" + more)[1..] == more;
    assert Read(s, InQuotes(v, p)) == Read(s[1..], InWord(v, p, true));
    assert Read(s[1..], InWord(v, p, true)) == Read("'" + more, InWord(v + "'", p, true));
  }

  /** A quoted string reads as itself, wherever in a word it stands and whatever follows. */
  lemma QuoteReads(x: string, rest: string, m: Mode)
    requires !m.InQuotes?
    ensures Read(ShellQuote(x) + rest, m) == Read(rest, InWord(Value(m) + x, Plain(m), true))
  {
    var s := ShellQuote(x) + rest;
    assert s[1..] == Escaped(x) + "'" + rest;
    EscapedReads(x, rest, Value(m), Plain(m));
  }

  /** A shell reads a quoted string as one word with exactly its characters. */
  lemma QuotedIsOneWord(x: string)
    ensures Words(ShellQuote(x)) == Some([Word(x, 0)])
  {
    QuoteReads(x, "", Between);
    assert ShellQuote(x) + "" == ShellQuote(x) && "" + x == x;
  }

  // ---------------------------------------------------------------- the command is undone

  lemma {:induction false} OrdinaryReads(w: string, rest: string, v: string, p: nat)
    requires forall i :: 0 <= i < |w| ==> Ordinary(w[i])
    ensures Read(w + rest, InWord(v, p, false)) == Read(rest, InWord(v + w, p + |w|, false))
    decreases |w|
  {
    if w == "" {
      assert w + rest == rest && v + w == v;
    } else {
      assert (w + rest)[1..] == w[1..] + rest;
      OrdinaryReads(w[1..], rest, v + [w[0]], p + 1);
      assert v + [w[0]] + w[1..] == v + w;
    }
  }

  lemma FirstLetter(c: char, rest: string)
    requires Ordinary(c)
    ensures Read([c] + rest, Between) == Read(rest, InWord([c], 1, false))
  {
    assert ([c] + rest)[1..] == rest && "" + [c] == [c];
  }

  lemma WordReads(w: string, rest: string)
    requires w != "" && forall i :: 0 <= i < |w| ==> Ordinary(w[i])
    ensures Read(w + rest, Between) == Read(rest, InWord(w, |w|, false))
  {
    var c, tail := w[0], w[1..];
    var more := tail + rest;
    assert w == [c] + tail;
    assert w + rest == [c] + more by {
      Assoc([c], tail, rest);
    }
    FirstLetter(c, more);
    OrdinaryReads(tail, rest, [c], 1);
  }

  lemma WordAndBlank(w: string, rest: string)
    requires w != "" && forall i :: 0 <= i < |w| ==> Ordinary(w[i])
    ensures Read(w + (" " + rest), Between) == Then([Word(w, |w|)], Read(rest, Between))
  {
    WordReads(w, " " + rest);
    assert (" " + rest)[1..] == rest;
  }

  /** The words of a resume command, with no token command. */
  function Expected(t: Target): seq<Word> {
    (if t.workDir == "" then [] else [Word("cd", 2), Word(t.workDir, 0), And])
    + (if t.configDir == "" then [] else [Word(CONFIG_NAME + t.configDir, |CONFIG_NAME|)])
    + [Word("claude", 6), Word("--resume", 8), Word(t.session, 0)]
  }

  lemma ThenNothing(r: Option<seq<Word>>)
    ensures Then([], r) == r
  {
    if r.Some? {
      assert [] + r.value == r.value;
    }
  }

  lemma ThenThen(a: seq<Word>, b: seq<Word>, r: Option<seq<Word>>)
    ensures Then(a, Then(b, r)) == Then(a + b, r)
  {
    if r.Some? {
      assert a + (b + r.value) == (a + b) + r.value;
    }
  }

  lemma Both(a: Word, b: Word)
    ensures Then([a], Some([b])) == Some([a, b])
  {
    assert [a] + [b] == [a, b];
  }

  lemma Three(a: Word, b: Word, c: Word)
    ensures Then([a], Some([b, c])) == Some([a, b, c])
  {
    assert [a] + [b, c] == [a, b, c];
  }

  lemma ResumeText(q: string)
    ensures "claude --resume " + q == "claude" + (" " + ("--resume" + (" " + q)))
  {
    assert "claude --resume " == "claude" + (" " + ("--resume" + " "));
    Assoc("--resume", " ", q);
    Assoc(" ", "--resume" + " ", q);
    Assoc("claude", " " + ("--resume" + " "), q);
  }

  lemma OptionPart(session: string)
    ensures Words("--resume" + (" " + ShellQuote(session))) == Some([Word("--resume", 8), Word(session, 0)])
  {
    QuotedIsOneWord(session);
    WordAndBlank("--resume", ShellQuote(session));
    Both(Word("--resume", 8), Word(session, 0));
  }

  lemma ResumePart(session: string)
    ensures Words("claude --resume " + ShellQuote(session))
      == Some([Word("claude", 6), Word("--resume", 8), Word(session, 0)])
  {
    var q := ShellQuote(session);
    var option := "--resume" + (" " + q);
    ResumeText(q);
    OptionPart(session);
    WordAndBlank("claude", option);
    Three(Word("claude", 6), Word("--resume", 8), Word(session, 0));
  }

  lemma ConfigPart(configDir: string, rest: string)
    ensures Words(CONFIG_NAME + (ShellQuote(configDir) + (" " + rest)))
      == Then([Word(CONFIG_NAME + configDir, |CONFIG_NAME|)], Words(rest))
  {
    WordReads(CONFIG_NAME, ShellQuote(configDir) + (" " + rest));
    QuoteReads(configDir, " " + rest, InWord(CONFIG_NAME, |CONFIG_NAME|, false));
    BlankEnds(CONFIG_NAME + configDir, |CONFIG_NAME|, rest);
  }

  /** A blank ends a word. */
  lemma BlankEnds(w: string, plain: nat, rest: string)
    requires plain <= |w|
    ensures Read(" " + rest, InWord(w, plain, true)) == Then([Word(w, plain)], Words(rest))
  {
    assert (" " + rest)[1..] == rest;
  }

  lemma AndReads(rest: string, m: Mode)
    requires !m.InQuotes?
    ensures Read(" && " + rest, m) == Then(Emit(m) + [And], Read(rest, Between))
  {
    assert (" && " + rest)[1..] == "&& " + rest;
    assert ("&& " + rest)[2..] == " " + rest && ("&& " + rest)[1] == '&';
    assert (" " + rest)[1..] == rest;
    assert Emit(Between) + [And] == [And];
    ThenNothing(Read(rest, Between));
    assert Read(" " + rest, Between) == Read(rest, Between);
    assert Read("&& " + rest, Between) == Then([And], Read(" " + rest, Between));
    ThenThen(Emit(m), [And], Read(rest, Between));
  }

  lemma DirectoryPart(workDir: string, rest: string)
    ensures Words("cd" + (" " + (ShellQuote(workDir) + (" && " + rest))))
      == Then([Word("cd", 2), Word(workDir, 0), And], Words(rest))
  {
    var more := " && " + rest;
    WordAndBlank("cd", ShellQuote(workDir) + more);
    QuoteReads(workDir, more, Between);
    assert "" + workDir == workDir;
    AndReads(rest, InWord(workDir, 0, true));
    ThenThen([Word("cd", 2)], [Word(workDir, 0)] + [And], Words(rest));
    assert [Word("cd", 2)] + ([Word(workDir, 0)] + [And]) == [Word("cd", 2), Word(workDir, 0), And];
  }

  /** Reading the command back gives its words, whatever characters the directory, the config
      directory and the session id hold. */
  lemma CommandReadsBack(t: Target)
    requires t.session != "" && t.tokenCommand == ""
    ensures Words(Command(t)) == Some(Expected(t))
  {
    var resume := "claude --resume " + ShellQuote(t.session);
    ResumePart(t.session);
    var config := Environment(t) + resume;
    EnvironmentReads(t, resume);
    Assoc(Directory(t), Environment(t), resume);
    DirectoryReads(t, config);
    var tail := [Word("claude", 6), Word("--resume", 8), Word(t.session, 0)];
    var env := if t.configDir == "" then [] else [Word(CONFIG_NAME + t.configDir, |CONFIG_NAME|)];
    assert Words(config) == Some(env + tail);
    var dir := if t.workDir == "" then [] else [Word("cd", 2), Word(t.workDir, 0), And];
    assert dir + (env + tail) == Expected(t);
  }

  lemma EnvironmentReads(t: Target, rest: string)
    requires t.tokenCommand == ""
    ensures Words(Environment(t) + rest)
      == Then(if t.configDir == "" then [] else [Word(CONFIG_NAME + t.configDir, |CONFIG_NAME|)], Words(rest))
  {
    var q := ShellQuote(t.configDir);
    if t.configDir == "" {
      assert Environment(t) + rest == rest;
      ThenNothing(Words(rest));
    } else {
      ConfigPart(t.configDir, rest);
      Regroup(CONFIG_NAME, q, " ", rest);
    }
  }

  lemma DirectoryReads(t: Target, rest: string)
    ensures Words(Directory(t) + rest)
      == Then(if t.workDir == "" then [] else [Word("cd", 2), Word(t.workDir, 0), And], Words(rest))
  {
    var q := ShellQuote(t.workDir);
    if t.workDir == "" {
      assert Directory(t) + rest == rest;
      ThenNothing(Words(rest));
    } else {
      DirectoryPart(t.workDir, rest);
      Regroup("cd ", q, " && ", rest);
      assert "cd " == "cd" + " ";
      Assoc("cd", " ", q + (" && " + rest));
    }
  }

  lemma Regroup(a: string, b: string, c: string, d: string)
    ensures a + b + c + d == a + (b + (c + d))
    ensures a + b + c + "" + d == a + (b + (c + d))
  {
  }

  /** What the words mean: where to go, which config directory, which session. */
  function Meaning(ws: seq<Word>): Option<Target> {
    var (dir, r1) := if |ws| >= 3 && ws[0] == Word("cd", 2) && ws[1].Word? && ws[2].And?
                     then (ws[1].value, ws[3..]) else ("", ws);
    var n := |CONFIG_NAME|;
    var (config, r2) := if r1 != [] && r1[0].Word? && r1[0].plain >= n && |r1[0].value| >= n && r1[0].value[..n] == CONFIG_NAME
                        then (r1[0].value[n..], r1[1..]) else ("", r1);
    if |r2| == 3 && r2[0] == Word("claude", 6) && r2[1] == Word("--resume", 8) && r2[2].Word?
    then Some(Target(r2[2].value, dir, config, "")) else None
  }

  lemma ExpectedMeans(t: Target)
    requires t.tokenCommand == ""
    ensures Meaning(Expected(t)) == Some(t)
  {
    var n := |CONFIG_NAME|;
    var value := CONFIG_NAME + t.configDir;
    assert value[..n] == CONFIG_NAME && value[n..] == t.configDir;
    var tail := [Word("claude", 6), Word("--resume", 8), Word(t.session, 0)];
    var env := if t.configDir == "" then [] else [Word(value, n)];
    if t.workDir != "" {
      assert Expected(t)[3..] == env + tail;
    } else {
      assert Expected(t) == env + tail;
    }
    if t.configDir != "" {
      assert (env + tail)[1..] == tail;
    } else {
      assert env + tail == tail;
    }
  }

  /** A command goes back to exactly the target it was made for. */
  lemma RoundTrip(t: Target)
    requires t.session != "" && t.tokenCommand == ""
    ensures Words(Command(t)).Some? && Meaning(Words(Command(t)).value) == Some(t)
  {
    CommandReadsBack(t);
    ExpectedMeans(t);
  }

  lemma CommandsAreDistinct(a: Target, b: Target)
    requires a.session != "" && b.session != "" && a.tokenCommand == "" && b.tokenCommand == ""
    ensures Command(a) == Command(b) ==> a == b
  {
    RoundTrip(a);
    RoundTrip(b);
  }
}
