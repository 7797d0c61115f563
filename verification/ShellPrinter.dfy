/** `shell_quote` and the command lines made with it, and what a shell reads them back as. */
module ShellPrinter {
  import opened Protocol
  import opened PosixShell
  import opened Text

  /** `value.replace('\'', "'\\''")`. */
  function Escaped(value: string): string {
    if value == "" then ""
    else (if value[0] == '\'' then "'\\''" else [value[0]]) + Escaped(value[1..])
  }

  function ShellQuote(value: string): string {
    "'" + Escaped(value) + "'"
  }

  function Quoted(args: seq<string>): seq<string> {
    seq(|args|, i requires 0 <= i < |args| => ShellQuote(args[i]))
  }

  /** `shell_command`. */
  function ShellCommand(command: seq<string>, logPath: string): string {
    Join(Quoted(command), " ") + " >> " + ShellQuote(logPath) + " 2>&1"
  }

  lemma {:induction false} EscapedReads(value: string, rest: string, env: Env, text: string)
    ensures SingleQuoted(Escaped(value) + "'" + rest, env, text) == Unquoted(rest, env, Part(text + value, true))
  {
    hide Unquoted, SingleQuoted, Escaped;
    if value == "" {
      CloseSingle(rest, env, text);
      EscapedNothing(rest);
      assert text + value == text;
    } else {
      var tail := Escaped(value[1..]) + "'" + rest;
      EscapedReads(value[1..], rest, env, text + [value[0]]);
      assert text + [value[0]] + value[1..] == text + value;
      EscapedFirst(value, rest);
      if value[0] == '\'' {
        QuoteWithin(tail, env, text);
      } else {
        TakeQuoted(value[0], tail, env, text);
      }
    }
  }

  lemma EscapedNothing(rest: string)
    ensures Escaped("") + "'" + rest == "'" + rest
  {
  }

  /** The text of an escaped value, cut after its first character. */
  lemma EscapedFirst(value: string, rest: string)
    requires value != ""
    ensures Escaped(value) + "'" + rest
            == (if value[0] == '\'' then "'" + ("\\" + ['\''] + "'")
              else [value[0]]) + (Escaped(value[1..]) + "'" + rest)
  {
    var tail := Escaped(value[1..]);
    if value[0] == '\'' {
      assert "'\\''" == "'" + ("\\" + ['\''] + "'");
      assert Escaped(value) == "'" + ("\\" + ['\''] + "'") + tail;
    } else {
      assert Escaped(value) == [value[0]] + tail;
    }
  }

  /** Closing, escaping a quote and opening again adds the quote. */
  lemma QuoteWithin(tail: string, env: Env, text: string)
    ensures SingleQuoted("'" + ("\\" + ['\''] + "'") + tail, env, text) == SingleQuoted(tail, env, text + ['\''])
  {
    hide Unquoted, SingleQuoted;
    var open := "'" + tail;
    var escape := "\\" + ['\''] + open;
    assert "'" + ("\\" + ['\''] + "'") + tail == "'" + escape;
    CloseSingle(escape, env, text);
    TakeEscape('\'', open, env, Part(text, true));
    OpenSingle(tail, env, Part(text + ['\''], true));
  }

  lemma CloseSingle(rest: string, env: Env, text: string)
    ensures SingleQuoted("'" + rest, env, text) == Unquoted(rest, env, Part(text, true))
  {
    assert ("'" + rest)[1..] == rest;
  }

  lemma TakeQuoted(c: char, rest: string, env: Env, text: string)
    requires c != '\''
    ensures SingleQuoted([c] + rest, env, text) == SingleQuoted(rest, env, text + [c])
  {
    assert ([c] + rest)[1..] == rest;
  }

  /** A quoted value adds exactly the value to the word being read, whatever comes before and after. */
  lemma QuoteReads(value: string, rest: string, env: Env, w: Pending)
    ensures Unquoted(ShellQuote(value) + rest, env, w) == Unquoted(rest, env, Part(TextOf(w) + value, true))
  {
    hide Unquoted, SingleQuoted, Escaped;
    assert ShellQuote(value) + rest == "'" + (Escaped(value) + "'" + rest);
    OpenSingle(Escaped(value) + "'" + rest, env, w);
    EscapedReads(value, rest, env, TextOf(w));
  }

  lemma WholeQuote(value: string, rest: string, env: Env)
    ensures Unquoted(ShellQuote(value) + rest, env, NoWord) == Unquoted(rest, env, Part(value, true))
  {
    hide Unquoted, ShellQuote;
    QuoteReads(value, rest, env, NoWord);
    assert "" + value == value;
  }

  predicate EndsWord(rest: string) {
    rest == "" || rest[0] == ' '
  }

  lemma EndOfWord(text: string, rest: string, env: Env)
    requires EndsWord(rest)
    ensures Unquoted(rest, env, Part(text, true)) == Before([Word(text)], Unquoted(rest, env, NoWord))
  {
    if rest != "" {
      var more := rest[1..];
      assert rest == " " + more;
      TakeBlank(more, env, Part(text, true));
      TakeBlank(more, env, NoWord);
      hide Unquoted;
      BeforeTwice([Word(text)], [], Unquoted(more, env, NoWord));
      assert [Word(text)] + [] == [Word(text)];
    } else {
      assert [Word(text)] + [] == [Word(text)];
    }
  }

  /** The words of a joined list, before the end of the line or a blank. */
  lemma {:induction false} JoinReads(args: seq<string>, rest: string, env: Env)
    requires EndsWord(rest)
    ensures Unquoted(Join(Quoted(args), " ") + rest, env, NoWord)
            == Before(WordTokens(args), Unquoted(rest, env, NoWord))
  {
    hide Unquoted, ShellQuote;
    if args == [] {
      assert Join(Quoted(args), " ") + rest == rest;
      assert Unquoted(rest, env, NoWord).Some? ==>
        WordTokens(args) + Unquoted(rest, env, NoWord).value == Unquoted(rest, env, NoWord).value;
    } else if |args| == 1 {
      WholeQuote(args[0], rest, env);
      EndOfWord(args[0], rest, env);
      assert WordTokens(args) == [Word(args[0])];
    } else {
      JoinReads(args[1..], rest, env);
      var more := Join(Quoted(args[1..]), " ") + rest;
      assert Quoted(args)[1..] == Quoted(args[1..]);
      assert Join(Quoted(args), " ") + rest == ShellQuote(args[0]) + (" " + more);
      WholeQuote(args[0], " " + more, env);
      TakeBlank(more, env, Part(args[0], true));
      BeforeTwice([Word(args[0])], WordTokens(args[1..]), Unquoted(rest, env, NoWord));
      assert [Word(args[0])] + WordTokens(args[1..]) == WordTokens(args);
    }
  }

  // ---- NUL ----

  lemma {:induction false} NulInEscaped(value: string)
    ensures '\0' in Escaped(value) <==> '\0' in value
  {
    if value != "" {
      NulInEscaped(value[1..]);
      assert '\0' in value <==> value[0] == '\0' || '\0' in value[1..];
    }
  }

  predicate NulFree(args: seq<string>) {
    forall i :: 0 <= i < |args| ==> '\0' !in args[i]
  }

  lemma {:induction false} NulInJoined(args: seq<string>)
    ensures '\0' in Join(Quoted(args), " ") <==> !NulFree(args)
  {
    if args != [] {
      NulInEscaped(args[0]);
      NulInJoined(args[1..]);
      assert Quoted(args)[1..] == Quoted(args[1..]);
      assert NulFree(args) <==> '\0' !in args[0] && NulFree(args[1..]) by {
        assert forall i :: 1 <= i < |args| ==> args[i] == args[1..][i - 1];
      }
    }
  }

  /** The shell round trip: a shell reads the joined quotes back as exactly the arguments, whatever they hold, exactly
      when none of them holds a NUL. */
  lemma ShellRoundTrip(args: seq<string>, env: Env)
    ensures ReadCommand(Join(Quoted(args), " "), env) == Some(Command(args, [])) <==> NulFree(args)
  {
    var line := Join(Quoted(args), " ");
    NulInJoined(args);
    JoinReads(args, "", env);
    assert line + "" == line;
    ParseWords(args, []);
    assert args + [] == args;
  }

  /** The line given to tmux runs exactly the command, its output appended to the log and its errors sent after it. */
  lemma ShellCommandReads(command: seq<string>, logPath: string, env: Env)
    ensures ReadCommand(ShellCommand(command, logPath), env)
              == Some(Command(command, [Append("1", logPath), Duplicate("2", "1")]))
            <==> NulFree(command) && '\0' !in logPath
  {
    hide Unquoted, Parse, ShellQuote, Join;
    var line := ShellCommand(command, logPath);
    var words := Join(Quoted(command), " ");
    NulInCommand(command, logPath);
    var rest := " >> " + ShellQuote(logPath) + " 2>&1";
    assert line == words + rest;
    JoinReads(command, rest, env);
    RedirectReads(logPath, env);
    var redirect := [DGreat, Word(logPath), IoNumber("2"), GreatAnd, Word("1")];
    ParseWords(command, redirect);
    RedirectParses(logPath);
    assert command + [] == command;
  }

  lemma NulInCommand(command: seq<string>, logPath: string)
    ensures '\0' in ShellCommand(command, logPath) <==> !(NulFree(command) && '\0' !in logPath)
  {
    hide Join, Escaped;
    NulInJoined(command);
    NulInEscaped(logPath);
    var words, path := Join(Quoted(command), " "), Escaped(logPath);
    assert ShellCommand(command, logPath) == words + " >> '" + path + "' 2>&1";
  }

  lemma DuplicateReads(env: Env)
    ensures Unquoted("2>&1", env, NoWord) == Some([IoNumber("2"), GreatAnd, Word("1")])
  {
    var one: string := ['1'] + "";
    var amp: string := ">" + ['&'] + one;
    assert "2>&1" == ['2'] + amp;
    TakePlain('2', amp, env, NoWord);
    TakeRedirect('&', one, env, Part(['2'], false));
    TakePlain('1', "", env, NoWord);
    assert Unquoted("", env, Part(['1'], false)) == Some([Word(['1'])]);
    assert "" + ['2'] == ['2'] == "2" && "" + ['1'] == ['1'] == "1";
    assert AllDigits("2");
    assert [IoNumber("2")] + [GreatAnd] + [Word("1")] == [IoNumber("2"), GreatAnd, Word("1")];
  }

  lemma RedirectReads(logPath: string, env: Env)
    ensures Unquoted(" >> " + ShellQuote(logPath) + " 2>&1", env, NoWord)
            == Some([DGreat, Word(logPath), IoNumber("2"), GreatAnd, Word("1")])
  {
    hide ShellQuote, Unquoted;
    var tail := " " + "2>&1";
    var after := " " + (ShellQuote(logPath) + tail);
    var numbered := [IoNumber("2"), GreatAnd, Word("1")];
    assert " >> " + ShellQuote(logPath) + " 2>&1" == " " + (">" + ['>'] + after);
    TakeBlank(">" + ['>'] + after, env, NoWord);
    TakeRedirect('>', after, env, NoWord);
    TakeBlank(ShellQuote(logPath) + tail, env, NoWord);
    WholeQuote(logPath, tail, env);
    TakeBlank("2>&1", env, Part(logPath, true));
    DuplicateReads(env);
    var none: seq<Token> := [];
    var named := [Word(logPath)] + numbered;
    assert Unquoted(tail, env, Part(logPath, true)) == Some(named);
    assert none + named == named && none + [DGreat] == [DGreat];
    assert Unquoted(after, env, NoWord) == Some(named);
    assert Unquoted(">" + ['>'] + after, env, NoWord) == Some([DGreat] + named);
    assert none + ([DGreat] + named) == [DGreat] + named;
    assert [DGreat] + named == [DGreat, Word(logPath), IoNumber("2"), GreatAnd, Word("1")];
  }

  lemma RedirectParses(logPath: string)
    ensures Parse([DGreat, Word(logPath), IoNumber("2"), GreatAnd, Word("1")])
            == Some(Command([], [Append("1", logPath), Duplicate("2", "1")]))
  {
    var last := [IoNumber("2"), GreatAnd, Word("1")];
    assert last == [IoNumber("2"), GreatAnd, Word("1")] + [];
    ParseNumbered("2", GreatAnd, "1", []);
    ParseRedirect(DGreat, logPath, last);
    assert [Duplicate("2", "1")] + [] == [Duplicate("2", "1")];
    assert [Append("1", logPath)] + [Duplicate("2", "1")] == [Append("1", logPath), Duplicate("2", "1")];
    assert [DGreat, Word(logPath)] + last == [DGreat, Word(logPath), IoNumber("2"), GreatAnd, Word("1")];
  }
}
