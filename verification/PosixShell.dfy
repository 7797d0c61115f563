/** How a POSIX shell reads one command line (IEEE Std 1003.1-2017, Shell Command Language): quoting (2.2.1 to 2.2.3),
    token recognition (2.3), parameters inside double quotes (2.6.2) and the redirections `>>` and `n>&m` (2.7.3,
    2.7.6).
    A line that uses anything else reads as None. */
module PosixShell {
  import opened Protocol
  import opened Text

  type Env = map<string, string>

  datatype Token = Word(text: string) | IoNumber(digits: string) | DGreat | GreatAnd

  /** The word being read: none, or its text so far and whether any of it was quoted. */
  datatype Pending = NoWord | Part(text: string, quoted: bool)

  predicate NameStart(c: char) { 'a' <= c <= 'z' || 'A' <= c <= 'Z' || c == '_' }

  /** Characters that stand for themselves outside quotes. */
  predicate Plain(c: char) {
    NameStart(c) || Digit(c) || c in "-./,:@+"
  }

  predicate Blank(c: char) { c == ' ' || c == '\t' }

  function TextOf(w: Pending): string {
    if w.NoWord? then "" else w.text
  }

  function Flush(w: Pending): seq<Token> {
    if w.NoWord? then [] else [Word(w.text)]
  }

  /** A word of unquoted digits directly before a redirection is its file descriptor. */
  function FlushBeforeRedirect(w: Pending): seq<Token> {
    if w.Part? && !w.quoted && AllDigits(w.text) then [IoNumber(w.text)] else Flush(w)
  }

  function Before(tokens: seq<Token>, rest: Option<seq<Token>>): Option<seq<Token>> {
    if rest.None? then None else Some(tokens + rest.value)
  }

  function NameLength(s: string): (n: nat)
    ensures n <= |s|
  {
    if s == "" || !(NameStart(s[0]) || Digit(s[0])) then 0 else 1 + NameLength(s[1..])
  }

  function Value(env: Env, name: string): string {
    if name in env then env[name] else ""
  }

  function Unquoted(s: string, env: Env, w: Pending): Option<seq<Token>>
    decreases |s|
  {
    if s == "" then Some(Flush(w))
    else if s[0] == '\'' then SingleQuoted(s[1..], env, TextOf(w))
    else if s[0] == '"' then DoubleQuoted(s[1..], env, TextOf(w))
    else if s[0] == '\\' then
      if |s| < 2 then None
      else if s[1] == '\n' then Unquoted(s[2..], env, w)
      else Unquoted(s[2..], env, Part(TextOf(w) + [s[1]], true))
    else if Blank(s[0]) then Before(Flush(w), Unquoted(s[1..], env, NoWord))
    else if s[0] == '>' && |s| >= 2 && s[1] == '>' then
      Before(FlushBeforeRedirect(w) + [DGreat], Unquoted(s[2..], env, NoWord))
    else if s[0] == '>' && |s| >= 2 && s[1] == '&' then
      Before(FlushBeforeRedirect(w) + [GreatAnd], Unquoted(s[2..], env, NoWord))
    else if Plain(s[0]) then Unquoted(s[1..], env, Part(TextOf(w) + [s[0]], w.Part? && w.quoted))
    else None
  }

  function SingleQuoted(s: string, env: Env, text: string): Option<seq<Token>>
    decreases |s|
  {
    if s == "" then None
    else if s[0] == '\'' then Unquoted(s[1..], env, Part(text, true))
    else SingleQuoted(s[1..], env, text + [s[0]])
  }

  function DoubleQuoted(s: string, env: Env, text: string): Option<seq<Token>>
    decreases |s|
  {
    if s == "" then None
    else if s[0] == '"' then Unquoted(s[1..], env, Part(text, true))
    else if s[0] == '`' then None
    else if s[0] == '$' then
      var n := NameLength(s[1..]);
      if n == 0 || !NameStart(s[1]) then None
      else DoubleQuoted(s[1 + n..], env, text + Value(env, s[1..1 + n]))
    else if s[0] == '\\' && |s| >= 2 && s[1] == '\n' then DoubleQuoted(s[2..], env, text)
    else if s[0] == '\\' && |s| >= 2 && s[1] in "$`\"\\" then DoubleQuoted(s[2..], env, text + [s[1]])
    else DoubleQuoted(s[1..], env, text + [s[0]])
  }

  // ---- Commands ----

  datatype Redirect = Append(fd: string, file: string) | Duplicate(fd: string, target: string)

  datatype Command = Command(argv: seq<string>, redirects: seq<Redirect>)

  function Parse(tokens: seq<Token>): Option<Command>
    decreases |tokens|
  {
    if tokens == [] then Some(Command([], []))
    else
      var numbered := tokens[0].IoNumber?;
      var fd := if numbered then tokens[0].digits else "1";
      var rest := if numbered then tokens[1..] else tokens;
      if !numbered && rest[0].Word? then
        var c := Parse(rest[1..]);
        if c.None? then None else Some(c.value.(argv := [rest[0].text] + c.value.argv))
      else if |rest| >= 2 && !rest[0].Word? && !rest[0].IoNumber? && rest[1].Word? then
        var c := Parse(rest[2..]);
        if c.None? then None
        else Some(c.value.(redirects :=
          [if rest[0].DGreat? then Append(fd, rest[1].text) else Duplicate(fd, rest[1].text)] + c.value.redirects))
      else None
  }

  /** What a shell given `line` and `env` would run. No command line holds a NUL. */
  function ReadCommand(line: string, env: Env): Option<Command> {
    if '\0' in line then None
    else
      var tokens := Unquoted(line, env, NoWord);
      if tokens.None? then None else Parse(tokens.value)
  }

  /** The program and arguments the shell is replaced by, when the line is an `exec`. */
  function ExecutedBy(line: string, env: Env): Option<seq<string>> {
    var c := ReadCommand(line, env);
    if c.Some? && c.value.redirects == [] && |c.value.argv| >= 2 && c.value.argv[0] == "exec" then
      Some(c.value.argv[1..])
    else None
  }

  // ---- Reading words ----

  function WordTokens(words: seq<string>): seq<Token> {
    seq(|words|, i requires 0 <= i < |words| => Word(words[i]))
  }

  lemma BeforeTwice(a: seq<Token>, b: seq<Token>, rest: Option<seq<Token>>)
    ensures Before(a, Before(b, rest)) == Before(a + b, rest)
  {
    if rest.Some? { assert a + (b + rest.value) == (a + b) + rest.value; }
  }

  // One character at a time.

  lemma TakePlain(c: char, rest: string, env: Env, w: Pending)
    requires Plain(c)
    ensures Unquoted([c] + rest, env, w) == Unquoted(rest, env, Part(TextOf(w) + [c], w.Part? && w.quoted))
  {
    assert ([c] + rest)[1..] == rest;
  }

  lemma TakeBlank(rest: string, env: Env, w: Pending)
    ensures Unquoted(" " + rest, env, w) == Before(Flush(w), Unquoted(rest, env, NoWord))
  {
    assert (" " + rest)[1..] == rest;
  }

  lemma OpenSingle(rest: string, env: Env, w: Pending)
    ensures Unquoted("'" + rest, env, w) == SingleQuoted(rest, env, TextOf(w))
  {
    assert ("'" + rest)[1..] == rest;
  }

  lemma OpenDouble(rest: string, env: Env, w: Pending)
    ensures Unquoted("\"" + rest, env, w) == DoubleQuoted(rest, env, TextOf(w))
  {
    assert ("\"" + rest)[1..] == rest;
  }

  lemma TakeEscape(c: char, rest: string, env: Env, w: Pending)
    requires c != '\n'
    ensures Unquoted("\\" + [c] + rest, env, w) == Unquoted(rest, env, Part(TextOf(w) + [c], true))
  {
    var s := "\\" + [c] + rest;
    assert s[0] == '\\' && s[1] == c && s[2..] == rest;
  }

  lemma TakeRedirect(c: char, rest: string, env: Env, w: Pending)
    requires c == '>' || c == '&'
    ensures Unquoted(">" + [c] + rest, env, w)
            == Before(FlushBeforeRedirect(w) + [if c == '>' then DGreat else GreatAnd], Unquoted(rest, env, NoWord))
  {
    var s := ">" + [c] + rest;
    assert s[0] == '>' && s[1] == c && s[2..] == rest;
  }

  lemma CloseDouble(rest: string, env: Env, text: string)
    ensures DoubleQuoted("\"" + rest, env, text) == Unquoted(rest, env, Part(text, true))
  {
    assert ("\"" + rest)[1..] == rest;
  }

  lemma {:induction false} NameRun(name: string, rest: string)
    requires rest != "" && !NameStart(rest[0]) && !Digit(rest[0])
    requires forall i :: 0 <= i < |name| ==> NameStart(name[i]) || Digit(name[i])
    ensures NameLength(name + rest) == |name|
  {
    if name == "" {
      assert name + rest == rest;
    } else {
      assert (name + rest)[1..] == name[1..] + rest;
      NameRun(name[1..], rest);
    }
  }

  lemma TakeParameter(name: string, rest: string, env: Env, text: string)
    requires name != "" && NameStart(name[0])
    requires rest != "" && !NameStart(rest[0]) && !Digit(rest[0])
    requires forall i :: 0 <= i < |name| ==> NameStart(name[i]) || Digit(name[i])
    ensures DoubleQuoted("$" + name + rest, env, text) == DoubleQuoted(rest, env, text + Value(env, name))
  {
    var s := "$" + name + rest;
    NameRun(name, rest);
    assert s[1..] == name + rest;
    assert s[1..1 + |name|] == name && s[1 + |name|..] == rest && s[1] == name[0];
  }

  // Runs of characters.

  lemma {:induction false} PlainRun(w: string, rest: string, env: Env, p: Pending)
    requires w != "" && forall i :: 0 <= i < |w| ==> Plain(w[i])
    ensures Unquoted(w + rest, env, p) == Unquoted(rest, env, Part(TextOf(p) + w, p.Part? && p.quoted))
  {
    hide Unquoted, Plain;
    assert w + rest == [w[0]] + (w[1..] + rest);
    TakePlain(w[0], w[1..] + rest, env, p);
    assert TextOf(p) + [w[0]] + w[1..] == TextOf(p) + w;
    if |w| > 1 {
      PlainRun(w[1..], rest, env, Part(TextOf(p) + [w[0]], p.Part? && p.quoted));
    } else {
      assert w == [w[0]] && w[1..] + rest == rest;
    }
  }

  /** An unquoted word and the blank after it. */
  lemma PlainWord(w: string, rest: string, env: Env)
    requires w != "" && forall i :: 0 <= i < |w| ==> Plain(w[i])
    ensures Unquoted(w + " " + rest, env, NoWord) == Before([Word(w)], Unquoted(rest, env, NoWord))
  {
    hide Unquoted, Plain;
    assert w + " " + rest == w + (" " + rest);
    PlainRun(w, " " + rest, env, NoWord);
    assert "" + w == w;
    TakeBlank(rest, env, Part(w, false));
  }

  lemma {:induction false} ParseWords(words: seq<string>, rest: seq<Token>)
    ensures Parse(WordTokens(words) + rest)
            == if Parse(rest).None? then None
               else Some(Parse(rest).value.(argv := words + Parse(rest).value.argv))
  {
    if words == [] {
      assert WordTokens(words) + rest == rest;
      assert Parse(rest).Some? ==> words + Parse(rest).value.argv == Parse(rest).value.argv;
    } else {
      ParseWord(words[0], WordTokens(words[1..]) + rest);
      assert WordTokens(words) + rest == [Word(words[0])] + (WordTokens(words[1..]) + rest);
      ParseWords(words[1..], rest);
      assert Parse(rest).Some? ==>
        [words[0]] + (words[1..] + Parse(rest).value.argv) == words + Parse(rest).value.argv;
    }
  }

  lemma ParseWord(word: string, rest: seq<Token>)
    ensures Parse([Word(word)] + rest)
            == if Parse(rest).None? then None else Some(Parse(rest).value.(argv := [word] + Parse(rest).value.argv))
  {
    assert ([Word(word)] + rest)[1..] == rest;
  }

  function Redirection(token: Token, fd: string, file: string): Redirect {
    if token.DGreat? then Append(fd, file) else Duplicate(fd, file)
  }

  lemma ParseRedirect(token: Token, file: string, rest: seq<Token>)
    requires token.DGreat? || token.GreatAnd?
    ensures Parse([token, Word(file)] + rest)
            == if Parse(rest).None? then None
               else Some(Parse(rest).value.(redirects := [Redirection(token, "1", file)] + Parse(rest).value.redirects))
  {
    assert ([token, Word(file)] + rest)[2..] == rest;
  }

  lemma ParseNumbered(fd: string, token: Token, file: string, rest: seq<Token>)
    requires token.DGreat? || token.GreatAnd?
    ensures Parse([IoNumber(fd), token, Word(file)] + rest)
            == if Parse(rest).None? then None
               else Some(Parse(rest).value.(redirects := [Redirection(token, fd, file)] + Parse(rest).value.redirects))
  {
    var tokens := [IoNumber(fd), token, Word(file)] + rest;
    assert tokens[1..] == [token, Word(file)] + rest;
    assert tokens[1..][2..] == rest;
  }
}
