/** The worker's command policy. */
module Policy {
  import opened Protocol

  datatype Mode = AllowAll | DenyAll
  datatype PolicyConfig = PolicyConfig(mode: Mode, allow: seq<string>, deny: seq<string>)
  datatype Decision = Allow | Ask | Deny

  /** The text between slashes; always at least one piece. */
  function Pieces(path: string): (pieces: seq<string>)
    ensures |pieces| >= 1
  {
    if path == "" then [""]
    else
      var rest := Pieces(path[1..]);
      if path[0] == '/' then [""] + rest else [[path[0]] + rest[0]] + rest[1..]
  }

  /** Path components that name something: repeated slashes and "." pieces do not. */
  function Named(pieces: seq<string>): seq<string> {
    if pieces == [] then []
    else if pieces[0] == "" || pieces[0] == "." then Named(pieces[1..])
    else [pieces[0]] + Named(pieces[1..])
  }

  /** `Path::file_name`: the last component, unless there is none or it is "..". */
  function FileName(path: string): Option<string> {
    var named := Named(Pieces(path));
    if named == [] || named[|named| - 1] == ".." then None else Some(named[|named| - 1])
  }

  predicate CommandMatches(command: string, pattern: string) {
    command == pattern || FileName(command) == Some(pattern)
  }

  predicate CommandMatchesAny(command: string, patterns: seq<string>) {
    exists p :: p in patterns && CommandMatches(command, p)
  }

  function Authorize(config: PolicyConfig, argv: seq<string>): Decision {
    var command := if argv == [] then "" else argv[0];
    if CommandMatchesAny(command, config.deny) then Deny
    else if config.mode.AllowAll? || CommandMatchesAny(command, config.allow) then Allow
    else Deny
  }

  /** Extending the deny list never turns a denied command into an allowed one. */
  lemma DenyingMoreAllowsNoMore(config: PolicyConfig, more: PolicyConfig, argv: seq<string>)
    requires more.mode == config.mode && more.allow == config.allow
    requires forall p :: p in config.deny ==> p in more.deny
    ensures Authorize(more, argv).Allow? ==> Authorize(config, argv).Allow?
  {
  }

  predicate PlainName(name: string) {
    name != "" && name != "." && name != ".." && '/' !in name
  }

  lemma {:induction false} PiecesOfName(name: string)
    requires '/' !in name
    ensures Pieces(name) == [name]
  {
    if name != "" {
      assert name[0] in name;
      PiecesOfName(name[1..]);
      assert [name[0]] + name[1..] == name;
    }
  }

  lemma {:induction false} PiecesEndWith(dir: string, name: string)
    requires '/' !in name
    ensures var pieces := Pieces(dir + "/" + name);
      |pieces| >= 2 && pieces[|pieces| - 1] == name
  {
    var path := dir + "/" + name;
    if dir == "" {
      assert path[1..] == name;
      PiecesOfName(name);
    } else {
      assert path[1..] == dir[1..] + "/" + name;
      PiecesEndWith(dir[1..], name);
    }
  }

  lemma {:induction false} NamedKeepsLast(pieces: seq<string>, name: string)
    requires pieces != [] && pieces[|pieces| - 1] == name && name != "" && name != "."
    ensures Named(pieces) != [] && Named(pieces)[|Named(pieces)| - 1] == name
  {
    if |pieces| > 1 {
      NamedKeepsLast(pieces[1..], name);
    }
  }

  /** Denying a plain name denies the bare command and every path that ends in it, in both modes and whatever the
      allow list says. */
  lemma DenyCoversEveryPath(config: PolicyConfig, name: string, dir: string, args: seq<string>)
    requires name in config.deny && PlainName(name)
    ensures Authorize(config, [name] + args).Deny?
    ensures Authorize(config, [dir + "/" + name] + args).Deny?
  {
    assert CommandMatches(name, name);
    PiecesEndWith(dir, name);
    NamedKeepsLast(Pieces(dir + "/" + name), name);
    assert CommandMatches(dir + "/" + name, name);
  }

  /** What a pattern in either list is about: the command as it was written, or its file name. */
  predicate IsAbout(pattern: string, dir: string, name: string) {
    pattern == dir + "/" + name || pattern == name
  }

  lemma PathMatches(dir: string, name: string, pattern: string)
    requires PlainName(name)
    ensures CommandMatches(dir + "/" + name, pattern) <==> IsAbout(pattern, dir, name)
  {
    PiecesEndWith(dir, name);
    NamedKeepsLast(Pieces(dir + "/" + name), name);
  }

  /** A command given by path runs exactly when no deny pattern is about it and, under deny-all, some allow pattern
      is. */
  lemma AllowedIff(config: PolicyConfig, dir: string, name: string, args: seq<string>)
    requires PlainName(name)
    ensures Authorize(config, [dir + "/" + name] + args).Allow?
            <==> (forall p :: p in config.deny ==> !IsAbout(p, dir, name))
                 && (config.mode.AllowAll? || exists p :: p in config.allow && IsAbout(p, dir, name))
  {
    hide CommandMatches, IsAbout;
    forall p ensures CommandMatches(dir + "/" + name, p) <==> IsAbout(p, dir, name) {
      PathMatches(dir, name, p);
    }
  }

  // ---- Every command ----

  /** Slashes and "." pieces, which name nothing. */
  predicate Padding(s: string) {
    s == "" || (s[0] == '/' && (Padding(s[1..]) || (|s| >= 2 && s[1] == '.' && Padding(s[2..]))))
  }

  /** `path` is `before`, `name` and `after`, with a slash or nothing in front of the name and only padding behind. */
  predicate EndsAt(path: string, name: string, before: string, after: string) {
    && path == before + name + after
    && (before == "" || before[|before| - 1] == '/')
    && Padding(after)
  }

  /** The last component of the path is `name`. */
  ghost predicate IsLastComponent(path: string, name: string) {
    PlainName(name) && exists before: string, after: string :: EndsAt(path, name, before, after)
  }

  /** The part of a path before its first slash. */
  lemma {:induction false} FirstSlash(path: string) returns (first: string, rest: string)
    requires '/' in path
    ensures '/' !in first && path == first + "/" + rest
    ensures Pieces(path) == [first] + Pieces(rest)
  {
    if path[0] == '/' {
      first, rest := "", path[1..];
      assert path == "/" + rest;
    } else {
      var more;
      more, rest := FirstSlash(path[1..]);
      first := [path[0]] + more;
      assert path == [path[0]] + path[1..];
    }
  }

  lemma {:induction false} PiecesJoin(first: string, rest: string)
    requires '/' !in first
    ensures Pieces(first + "/" + rest) == [first] + Pieces(rest)
  {
    var path := first + "/" + rest;
    if first == "" {
      assert path[1..] == rest;
    } else {
      assert path[1..] == first[1..] + "/" + rest;
      assert path[0] == first[0] && first[0] in first;
      PiecesJoin(first[1..], rest);
      assert [first[0]] + first[1..] == first;
    }
  }

  lemma {:induction false} NamedSplit(a: seq<string>, b: seq<string>)
    ensures Named(a + b) == Named(a) + Named(b)
  {
    if a == [] {
      assert a + b == b;
    } else {
      assert (a + b)[1..] == a[1..] + b;
      NamedSplit(a[1..], b);
    }
  }

  lemma PaddingPiece(s: string)
    requires '/' !in s
    ensures Padding("/" + s) <==> s == "" || s == "."
  {
    assert ("/" + s)[1..] == s;
    if s != "" {
      assert s[0] in s;
      assert ("/" + s)[2..] == s[1..];
      assert s[1..] != "" ==> s[1..][0] in s;
      assert s == [s[0]] + s[1..];
    }
  }

  lemma PaddingBehind(first: string, rest: string)
    requires '/' !in first
    ensures Padding("/" + (first + "/" + rest)) <==> (first == "" || first == ".") && Padding("/" + rest)
  {
    var s := first + "/" + rest;
    assert ("/" + s)[1..] == s;
    if first == "" {
      assert s == "/" + rest;
    } else {
      assert s[0] == first[0] && first[0] in first;
      assert ("/" + s)[2..] == s[1..];
      assert s[1..] == first[1..] + "/" + rest;
      if first[1..] == "" {
        assert s[1..] == "/" + rest && first == [s[0]];
      } else {
        assert s[1] == first[1] && first[1] in first;
      }
    }
  }

  /** The pieces of a path name nothing exactly when the path behind a slash is padding. */
  lemma {:induction false} PaddingNamesNothing(s: string)
    ensures Padding("/" + s) <==> Named(Pieces(s)) == []
    decreases |s|
  {
    hide Padding, Pieces;
    if '/' !in s {
      PiecesOfName(s);
      PaddingPiece(s);
    } else {
      var first, rest := FirstSlash(s);
      NamedSplit([first], Pieces(rest));
      PaddingBehind(first, rest);
      PaddingNamesNothing(rest);
      assert Named([first]) == if first == "" || first == "." then [] else [first];
    }
  }

  /** `Path::file_name` is the last component, padding aside. */
  lemma FileNameIff(path: string, name: string)
    ensures FileName(path) == Some(name) <==> IsLastComponent(path, name)
  {
    if FileName(path) == Some(name) {
      var before, after := FileNameFound(path, name);
    }
    if PlainName(name) {
      forall before: string, after: string | EndsAt(path, name, before, after) ensures FileName(path) == Some(name) {
        FileNameThere(path, name, before, after);
      }
    }
  }

  lemma FileNameOfPiece(path: string)
    requires '/' !in path
    ensures FileName(path) == if PlainName(path) then Some(path) else None
  {
    PiecesOfName(path);
    assert Named([path]) == if path == "" || path == "." then [] else [path];
  }

  /** The last component of a path is that of what follows its first slash, or what stands before that. */
  lemma FileNameBehind(first: string, rest: string)
    requires '/' !in first
    ensures FileName(first + "/" + rest) ==
        (if !Padding("/" + rest) then FileName(rest) else if PlainName(first) then Some(first) else None)
  {
    PiecesJoin(first, rest);
    NamedSplit([first], Pieces(rest));
    PaddingNamesNothing(rest);
    hide Pieces, Padding;
    assert Named([first]) == if first == "" || first == "." then [] else [first];
  }

  lemma {:induction false} FileNameThere(path: string, name: string, before: string, after: string)
    requires PlainName(name) && EndsAt(path, name, before, after)
    ensures FileName(path) == Some(name)
    decreases |before|
  {
    if before == "" {
      if after != "" {
        assert after == "/" + after[1..] && path == name + "/" + after[1..];
        hide Padding, FileName;
        FileNameBehind(name, after[1..]);
      } else {
        assert path == name;
        FileNameOfPiece(path);
      }
    } else {
      assert before[|before| - 1] in before;
      var first, rest := FirstSlash(before);
      var path' := rest + name + after;
      assert path == first + "/" + path';
      assert rest == "" || rest[|rest| - 1] == before[|before| - 1];
      FileNameThere(path', name, rest, after);
      hide Padding, FileName;
      FileNameBehind(first, path');
      if Padding("/" + path') { NotPadding(rest, name, after); }
    }
  }

  lemma {:induction false} NotPadding(before: string, name: string, after: string)
    requires PlainName(name) && (before == "" || before[|before| - 1] == '/')
    ensures !Padding("/" + (before + name + after))
    decreases |before|
  {
    if before == "" {
      NameIsNoPadding(name, after);
      assert before + name + after == name + after;
    } else {
      assert before[|before| - 1] in before;
      var first, rest := FirstSlash(before);
      assert rest == "" || rest[|rest| - 1] == before[|before| - 1];
      NotPadding(rest, name, after);
      assert before + name + after == first + "/" + (rest + name + after);
      hide Padding;
      PaddingBehind(first, rest + name + after);
    }
  }

  lemma NameIsNoPadding(name: string, after: string)
    requires PlainName(name)
    ensures !Padding("/" + (name + after))
  {
    var s := "/" + (name + after);
    assert s[1] == name[0] && name[0] in name;
    assert s[1..] == name + after;
    if |name| > 1 {
      assert s[2] == name[1] && name[1] in name;
    } else {
      assert name == [name[0]];
    }
  }

  lemma {:induction false} FileNameFound(path: string, name: string) returns (before: string, after: string)
    requires FileName(path) == Some(name)
    ensures PlainName(name) && EndsAt(path, name, before, after)
    decreases |path|
  {
    hide FileName, Padding, PlainName;
    if '/' !in path {
      FileNameOfPiece(path);
      before, after := "", "";
      assert path == "" + name + "";
      assert Padding("") by { NoPadding(); }
    } else {
      var first, rest := FirstSlash(path);
      FileNameBehind(first, rest);
      if Padding("/" + rest) {
        before, after := "", "/" + rest;
        assert path == "" + name + after;
      } else {
        before, after := FileNameFound(rest, name);
        assert path == first + "/" + before + name + after;
        before := first + "/" + before;
      }
    }
  }

  lemma NoPadding()
    ensures Padding("")
  {
  }

  /** A pattern in either list is about a command when it is the command or its last component. */
  ghost predicate Hits(pattern: string, command: string) {
    pattern == command || IsLastComponent(command, pattern)
  }

  /** Any command whatever runs exactly when no deny pattern hits it and, under deny-all, some allow pattern does. */
  lemma AuthorizeIff(config: PolicyConfig, command: string, args: seq<string>)
    ensures Authorize(config, [command] + args).Allow?
            <==> (forall p :: p in config.deny ==> !Hits(p, command))
                 && (config.mode.AllowAll? || exists p :: p in config.allow && Hits(p, command))
    ensures !Authorize(config, [command] + args).Ask?
  {
    hide IsLastComponent, FileName;
    forall p ensures CommandMatches(command, p) <==> Hits(p, command) {
      FileNameIff(command, p);
    }
    hide CommandMatches, Hits;
  }

  /** A command given without a path runs exactly when its name is not denied and, under deny-all, is allowed. */
  lemma BareAllowedIff(config: PolicyConfig, name: string, args: seq<string>)
    requires PlainName(name)
    ensures Authorize(config, [name] + args).Allow?
            <==> name !in config.deny && (config.mode.AllowAll? || name in config.allow)
  {
    FileNameOfPiece(name);
    hide FileName;
    assert forall p :: CommandMatches(name, p) <==> p == name;
    hide CommandMatches;
  }

  /** An empty argument vector counts as the empty command, which only an empty pattern is about. */
  lemma NoCommandAllowedIff(config: PolicyConfig)
    ensures Authorize(config, []).Allow?
            <==> "" !in config.deny && (config.mode.AllowAll? || "" in config.allow)
  {
    assert Pieces("") == [""] && Named([""]) == [];
    assert forall p :: CommandMatches("", p) <==> p == "";
    hide CommandMatches;
  }
}
