/** The shebang rewriter: `process_file` reads a file's first line, takes a `#!` line
    apart into an interpreter and its arguments, builds the replacement line from
    interpreters resolved on the search path, and rewrites the file in place when the
    line changes and the update policy allows it, keeping the file's modification time. */
module Rewriter {
  import opened Results
  import opened Text
  import opened Resolver

  /** Interpreters under this prefix are already canonical and are only rewritten on
      request. */
  const NixStore := "/nix/store"

  /** A shebang line taken apart: the line without its trailing whitespace, the first
      word after the marker (empty when there is none) and the words after it. */
  datatype Shebang = Shebang(original: string, interpreter: string, args: seq<string>)

  /** A first line that makes the file a script: something was read and it starts
      with the `#!` marker. */
  predicate IsScript(firstLine: string) {
    |firstLine| > 0 && StartsWith(firstLine, "#!")
  }

  /** The parsing half of `process_file`: trailing whitespace dropped, every leading
      marker dropped, the rest trimmed and split into words. */
  function ParseShebang(firstLine: string): (sh: Shebang)
    ensures sh.original == TrimEnd(firstLine)
    ensures sh.interpreter == [] ==> sh.args == []
    ensures sh.interpreter != [] ==> IsWord(sh.interpreter)
    ensures AllWords(sh.args)
  {
    var original := TrimEnd(firstLine);
    var words := SplitWhitespace(Trim(TrimMarkers(original)));
    if words == [] then Shebang(original, [], []) else Shebang(original, words[0], words[1..])
  }

  /** Whatever follows the leading markers is split into its words: the first is the
      interpreter, the others are its arguments, in order. */
  lemma {:induction false} ParseMarked(markers: string, rest: string)
    requires AllMarkers(markers) && !StartsWith(rest, "#!")
    ensures var words := SplitWhitespace(rest);
      && ParseShebang(markers + rest).original == markers + TrimEnd(rest)
      && ParseShebang(markers + rest).interpreter == (if words == [] then [] else words[0])
      && ParseShebang(markers + rest).args == (if words == [] then [] else words[1..])
  {
    var e := TrimEnd(rest);
    assert TrimEnd(markers + rest) == markers + e by {
      if markers != [] {
        MarkersEnd(markers);
      }
      TrimEndAppend(markers, rest);
    }
    assert TrimMarkers(markers + e) == e by {
      PrefixNotStarting(rest, e, "#!");
      TrimMarkersAll(markers, e);
    }
    assert SplitWhitespace(Trim(e)) == SplitWhitespace(rest) by {
      SplitOfTrim(e);
      SplitOfTrimEnd(rest);
    }
  }

  /** A shebang line made of one or more markers, whitespace, words separated by
      whitespace runs of any length and trailing whitespace is a script whose
      interpreter is the first word and whose arguments are the other words, in order. */
  lemma {:induction false} ParseLaidOut(markers: string, lead: string, words: seq<string>, gaps: seq<string>)
    requires AllMarkers(markers) && markers != []
    requires AllWhitespace(lead) && AllWords(words) && |gaps| == |words| && Gaps(gaps)
    requires !StartsWith(lead + Spread(words, gaps), "#!")
    ensures var line := markers + lead + Spread(words, gaps);
      && IsScript(line)
      && ParseShebang(line).interpreter == (if words == [] then [] else words[0])
      && ParseShebang(line).args == (if words == [] then [] else words[1..])
  {
    var rest := lead + Spread(words, gaps);
    AppendAssoc(markers, lead, Spread(words, gaps));
    ParseMarked(markers, rest);
    SplitSpread(lead, words, gaps);
    assert StartsWith(markers, "#!");
    MarkersMakeScript(markers, rest);
  }

  /** A line that starts with a marker is a script line, whatever follows. */
  lemma {:induction false} MarkersMakeScript(markers: string, rest: string)
    requires StartsWith(markers, "#!")
    ensures IsScript(markers + rest)
  {
    assert (markers + rest)[..2] == markers[..2];
  }

  /** Anything after the marker makes a script line. */
  lemma {:induction false} MarkedIsScript(x: string, y: string)
    ensures IsScript("#!" + x + y)
  {
    assert ("#!" + x + y)[..2] == "#!";
  }

  /** A line made of the marker and words joined by single spaces parses back into
      those words, whatever whitespace follows it. */
  lemma {:induction false} ParseBuiltLine(words: seq<string>, trailing: string)
    requires |words| > 0 && AllWords(words) && !StartsWith(words[0], "#!")
    requires AllWhitespace(trailing)
    ensures ParseShebang("#!" + JoinWith(words, " ") + trailing)
      == Shebang("#!" + JoinWith(words, " "), words[0], words[1..])
  {
    var j := JoinWith(words, " ");
    var line := "#!" + j;
    assert TrimEnd(line + trailing) == line by {
      JoinedWordsShape(words);
      assert line[|line| - 1] == j[|j| - 1];
      TrimEndAfterWhitespace(line, trailing);
    }
    assert Trim(TrimMarkers(line)) == j by {
      JoinedNotMarked(words);
      TrimMarkersOnce(j);
      TrimOfTrimmed(j);
    }
    assert SplitWhitespace(j) == words by {
      SplitJoinedWords(words);
    }
  }

  /** The `env` branch of `process_file`: `env -S prog args...` keeps `env` and the
      remaining arguments, `env prog` drops `env` and every later argument, and any
      other `env` usage is rejected. */
  function EnvLine(original: string, args: seq<string>, pathEnv: string, files: set<string>): (r: Result<string>)
    ensures (r == Err(InvalidShebang(original))) <==> (|args| == 0 || args == ["-S"])
    ensures (r == Err(UnsupportedShebang(original)))
      <==> (|args| > 0 && args[0] != "-S" && (StartsWith(args[0], "-") || '=' in args[0]))
    ensures r.Err? && r.error.NotFound? ==>
      || (|args| > 1 && args[0] == "-S" && r.error.program in {args[1], "env"})
      || (|args| > 0 && r.error.program == args[0])
    ensures |args| > 1 && args[0] == "-S" ==>
      && (Which(args[1], pathEnv, files).Err? ==> r == Err(NotFound(args[1])))
      && (Which(args[1], pathEnv, files).Ok? && Which("env", pathEnv, files).Err? ==> r == Err(NotFound("env")))
      && (Which(args[1], pathEnv, files).Ok? && Which("env", pathEnv, files).Ok? ==> r.Ok?)
    ensures |args| > 0 && args[0] != "-S" && !StartsWith(args[0], "-") && '=' !in args[0] ==>
      && (Which(args[0], pathEnv, files).Err? ==> r == Err(NotFound(args[0])))
      && (Which(args[0], pathEnv, files).Ok? ==> r.Ok?)
    ensures r.Ok? ==> StartsWith(r.value, "#!")
  {
    if |args| == 0 then Err(InvalidShebang(original))
    else if args[0] == "-S" then
      if |args| == 1 then Err(InvalidShebang(original))
      else
        var progPath := Which(args[1], pathEnv, files);
        var envPath := Which("env", pathEnv, files);
        if progPath.Err? then Err(progPath.error)
        else if envPath.Err? then Err(envPath.error)
        else Ok("#!" + (envPath.value + " -S " + progPath.value + " " + JoinWith(args[2..], " ")))
    else if StartsWith(args[0], "-") || '=' in args[0] then Err(UnsupportedShebang(original))
    else
      var progPath := Which(args[0], pathEnv, files);
      if progPath.Err? then Err(progPath.error) else Ok("#!" + progPath.value)
  }

  /** The direct branch of `process_file`: the interpreter's file name is looked up and
      the original arguments follow the resolved path. */
  function DirectLine(interpreter: string, args: seq<string>, pathEnv: string, files: set<string>): (r: Result<string>)
    ensures r.Err? <==> Which(FileName(interpreter), pathEnv, files).Err?
    ensures r.Err? ==> r.error == NotFound(FileName(interpreter))
    ensures r.Ok? ==> StartsWith(r.value, "#!")
  {
    match Which(FileName(interpreter), pathEnv, files)
    case Err(e) => Err(e)
    case Ok(resolved) => Ok("#!" + JoinWith([resolved] + args, " "))
  }

  /** The replacement line for a parsed shebang; `env` is recognised only as the last
      component of a path, so a bare `env` goes down the direct branch. */
  function BuildLine(sh: Shebang, pathEnv: string, files: set<string>): (r: Result<string>)
    ensures r.Ok? ==> StartsWith(r.value, "#!")
  {
    if EndsWith(sh.interpreter, "/env") then EnvLine(sh.original, sh.args, pathEnv, files)
    else DirectLine(sh.interpreter, sh.args, pathEnv, files)
  }

  /** `env -S prog rest...` becomes the resolved `env`, `-S`, the resolved program and
      the remaining arguments in their order, one space apart; with nothing remaining a
      single trailing space is left. */
  lemma {:induction false} DashSLine(original: string, args: seq<string>, pathEnv: string, files: set<string>)
    requires |args| >= 2 && args[0] == "-S"
    requires Which(args[1], pathEnv, files).Ok? && Which("env", pathEnv, files).Ok?
    ensures var envPath := Which("env", pathEnv, files).value;
      var progPath := Which(args[1], pathEnv, files).value;
      var words := [envPath, "-S", progPath] + args[2..];
      EnvLine(original, args, pathEnv, files)
        == Ok("#!" + JoinWith(words, " ") + (if |args| == 2 then " " else ""))
    ensures |args| == 2 ==>
      var envPath := Which("env", pathEnv, files).value;
      var progPath := Which(args[1], pathEnv, files).value;
      EnvLine(original, args, pathEnv, files) == Ok("#!" + JoinWith([envPath, "-S", progPath], " ") + " ")
  {
    var envPath := Which("env", pathEnv, files).value;
    var progPath := Which(args[1], pathEnv, files).value;
    DashSFormat(envPath, progPath, args[2..]);
    if |args| == 2 {
      assert [envPath, "-S", progPath] + args[2..] == [envPath, "-S", progPath];
    }
  }

  /** `env prog args...` resolves `prog` alone: the arguments after it do not matter. */
  lemma {:induction false} PlainEnvIgnoresLaterArgs(original: string, prog: string, xs: seq<string>, ys: seq<string>,
                                 pathEnv: string, files: set<string>)
    requires prog != "-S" && !StartsWith(prog, "-") && '=' !in prog
    ensures EnvLine(original, [prog] + xs, pathEnv, files) == EnvLine(original, [prog] + ys, pathEnv, files)
    ensures EnvLine(original, [prog] + xs, pathEnv, files)
      == match Which(prog, pathEnv, files) case Err(e) => Err(e) case Ok(p) => Ok("#!" + p)
  {
  }

  /** A direct interpreter is looked up by its file name only: the directory it was
      written with does not matter. */
  lemma {:induction false} DirectIgnoresDirectory(interpreter: string, other: string, args: seq<string>,
                               pathEnv: string, files: set<string>)
    requires FileName(interpreter) == FileName(other)
    ensures DirectLine(interpreter, args, pathEnv, files) == DirectLine(other, args, pathEnv, files)
  {
  }

  /** A direct interpreter's line is the marker and the resolved path, followed by
      each original argument with exactly one space in front of it. */
  lemma {:induction false} DirectLineShape(interpreter: string, args: seq<string>, pathEnv: string, files: set<string>)
    requires Which(FileName(interpreter), pathEnv, files).Ok?
    ensures DirectLine(interpreter, args, pathEnv, files)
      == Ok("#!" + Which(FileName(interpreter), pathEnv, files).value + Prefixed(args, " "))
  {
    var resolved := Which(FileName(interpreter), pathEnv, files).value;
    JoinWithHead(resolved, args, " ");
    AppendAssoc("#!", resolved, Prefixed(args, " "));
  }

  /** The write rule: the line must change, and an interpreter already under the store
      is only rewritten when an update is forced. */
  predicate ShouldWrite(sh: Shebang, line: string, update: bool) {
    sh.original != line && (update || !StartsWith(sh.interpreter, NixStore))
  }

  /** What `process_file` returns for a file with this content: nothing for a
      non-script, the error of a bad or unresolvable shebang, the new line when the
      file is to be rewritten and nothing otherwise. */
  function Decide(content: string, pathEnv: string, files: set<string>, update: bool): (r: Result<Option<string>>)
  {
    var first := FirstLine(content);
    if !IsScript(first) then Ok(None)
    else
      var sh := ParseShebang(first);
      match BuildLine(sh, pathEnv, files)
      case Err(e) => Err(e)
      case Ok(line) => if ShouldWrite(sh, line, update) then Ok(Some(line)) else Ok(None)
  }

  /** Only scripts are rewritten, a rewrite always changes the line and keeps the
      marker, and an interpreter under the store is rewritten only on request. */
  lemma {:induction false} DecideWrites(content: string, pathEnv: string, files: set<string>, update: bool)
    ensures var r := Decide(content, pathEnv, files, update);
      && (!IsScript(FirstLine(content)) ==> r == Ok(None))
      && (r.Ok? && r.value.Some? ==>
        && IsScript(FirstLine(content))
        && r.value.value != TrimEnd(FirstLine(content))
        && StartsWith(r.value.value, "#!"))
      && (r.Ok? && r.value.Some? && !update ==> !StartsWith(ParseShebang(FirstLine(content)).interpreter, NixStore))
  {
    var first := FirstLine(content);
    var r := Decide(content, pathEnv, files, update);
    if IsScript(first) {
      var sh := ParseShebang(first);
      match BuildLine(sh, pathEnv, files)
      case Err(e) =>
        assert r == Err(e);
      case Ok(line) =>
        if ShouldWrite(sh, line, update) {
          assert r == Ok(Some(line));
        } else {
          assert r == Ok(None);
        }
    } else {
      assert r == Ok(None);
    }
  }

  /** A script whose replacement line cannot be built fails with that line's error:
      an invalid or unsupported `env` usage or an interpreter not found. */
  lemma {:induction false} DecideError(content: string, pathEnv: string, files: set<string>, update: bool)
    requires IsScript(FirstLine(content))
    requires BuildLine(ParseShebang(FirstLine(content)), pathEnv, files).Err?
    ensures Decide(content, pathEnv, files, update)
      == Err(BuildLine(ParseShebang(FirstLine(content)), pathEnv, files).error)
  {
  }

  /** An `env` shebang whose only argument is `-S` (`#!/usr/bin/env -S`) fails as an
      invalid shebang, whatever the search path. */
  lemma {:induction false} DashSWithoutProgramRejected(content: string, pathEnv: string, files: set<string>, update: bool)
    requires IsScript(FirstLine(content))
    requires var sh := ParseShebang(FirstLine(content));
      EndsWith(sh.interpreter, "/env") && sh.args == ["-S"]
    ensures Decide(content, pathEnv, files, update) == Err(InvalidShebang(TrimEnd(FirstLine(content))))
  {
  }

  /** An `env` shebang whose first argument is another option or a variable setting
      (`#!/usr/bin/env --version=1 bash`) fails as unsupported, whatever the search
      path. */
  lemma {:induction false} EnvOptionRejected(content: string, pathEnv: string, files: set<string>, update: bool)
    requires IsScript(FirstLine(content))
    requires var sh := ParseShebang(FirstLine(content));
      && EndsWith(sh.interpreter, "/env") && |sh.args| > 0 && sh.args[0] != "-S"
      && (StartsWith(sh.args[0], "-") || '=' in sh.args[0])
    ensures Decide(content, pathEnv, files, update) == Err(UnsupportedShebang(TrimEnd(FirstLine(content))))
  {
  }

  /** A script whose line builds successfully is rewritten exactly when the line
      changes and either an update is forced or the interpreter is outside the store. */
  lemma {:induction false} WriteDecision(content: string, pathEnv: string, files: set<string>, update: bool)
    requires IsScript(FirstLine(content))
    requires BuildLine(ParseShebang(FirstLine(content)), pathEnv, files).Ok?
    ensures var sh := ParseShebang(FirstLine(content));
      var line := BuildLine(sh, pathEnv, files).value;
      var writes := line != sh.original && (update || !StartsWith(sh.interpreter, NixStore));
      && (Decide(content, pathEnv, files, update) == Ok(Some(line)) <==> writes)
      && (Decide(content, pathEnv, files, update) == Ok(None) <==> !writes)
  {
  }

  /** A decision to rewrite carries the line built for the shebang. */
  lemma {:induction false} DecidedLine(content: string, pathEnv: string, files: set<string>, update: bool)
    requires Decide(content, pathEnv, files, update).Ok? && Decide(content, pathEnv, files, update).value.Some?
    ensures IsScript(FirstLine(content))
    ensures BuildLine(ParseShebang(FirstLine(content)), pathEnv, files)
      == Ok(Decide(content, pathEnv, files, update).value.value)
  {
    var first := FirstLine(content);
    assert IsScript(first);
    var sh := ParseShebang(first);
    assert BuildLine(sh, pathEnv, files).Ok?;
  }

  /** The content written back: the first occurrence of the original line replaced by
      the new one. */
  function Rewritten(content: string, line: string): string {
    ReplaceFirst(content, TrimEnd(FirstLine(content)), line)
  }

  /** The original line starts the content and has no newline in it. */
  lemma {:induction false} OriginalStartsContent(content: string)
    requires IsScript(FirstLine(content))
    ensures var original := TrimEnd(FirstLine(content));
      StartsWith(original, "#!") && StartsWith(content, original) && NoNewline(original)
  {
    var first := FirstLine(content);
    var original := TrimEnd(first);
    assert first[1] == first[..2][1];
    TrimEndKeeps(first, 1);
    assert original[..2] == first[..2];
  }

  /** A rewrite replaces the original line at the very start and leaves every later
      character, the rest of the first line included, as it was. */
  lemma {:induction false} RewriteOnlyFirstLine(content: string, line: string)
    requires IsScript(FirstLine(content))
    ensures var original := TrimEnd(FirstLine(content));
      && content == original + content[|original|..]
      && Rewritten(content, line) == line + content[|original|..]
  {
    var original := TrimEnd(FirstLine(content));
    OriginalStartsContent(content);
    assert content == original + content[|original|..] by {
      assert content[..|original|] == original;
    }
  }

  /** After a rewrite with a one-line replacement, the first line is the new line
      followed by the whitespace that ended the old one. */
  lemma {:induction false} RewrittenFirstLine(content: string, line: string)
    requires IsScript(FirstLine(content)) && NoNewline(line)
    ensures var first := FirstLine(content);
      var original := TrimEnd(first);
      FirstLine(Rewritten(content, line)) == line + first[|original|..]
  {
    var first := FirstLine(content);
    var original := TrimEnd(first);
    var rest := content[|original|..];
    OriginalStartsContent(content);
    RewriteOnlyFirstLine(content, line);
    FirstLineAfter(original, rest);
    FirstLineAfter(line, rest);
    assert FirstLine(rest) == first[|original|..];
  }

  /** A file whose first line is the marker and words that a direct lookup resolves to
      themselves is left alone. */
  lemma {:induction false} DirectFixedPoint(content: string, pathEnv: string, files: set<string>, update: bool,
                                           words: seq<string>, trailing: string)
    requires |words| > 0 && AllWords(words) && !StartsWith(words[0], "#!") && !EndsWith(words[0], "/env")
    requires Which(FileName(words[0]), pathEnv, files) == Ok(words[0])
    requires AllWhitespace(trailing)
    requires FirstLine(content) == "#!" + JoinWith(words, " ") + trailing
    ensures Decide(content, pathEnv, files, update) == Ok(None)
  {
    ParseBuiltLine(words, trailing);
    HeadTail(words);
  }

  /** The marker and words joined by single spaces make one line, also with a space
      after it. */
  lemma {:induction false} MarkedLineShape(words: seq<string>)
    requires |words| > 0 && AllWords(words)
    ensures NoNewline("#!" + JoinWith(words, " "))
    ensures NoNewline("#!" + JoinWith(words, " ") + " ")
  {
    JoinedWordsShape(words);
  }

  /** A resolved path is found again by its own file name. */
  lemma {:induction false} WhichOwnFileName(program: string, pathEnv: string, files: set<string>)
    requires '/' !in program
    requires Which(program, pathEnv, files).Ok?
    ensures var resolved := Which(program, pathEnv, files).value;
      Which(FileName(resolved), pathEnv, files) == Ok(resolved)
  {
    var dirs := SplitPaths(pathEnv);
    var resolved := Which(program, pathEnv, files).value;
    WhichFirstHit(program, pathEnv, files);
    var i :| FirstHit(program, dirs, files, i) && resolved == Candidate(dirs[i], program);
    FileNameOfJoin(dirs[i], program);
  }

  /** Rewriting a script's first line to the marker and words that a direct lookup
      resolves to themselves gives a file that a second pass leaves alone. */
  lemma {:induction false} SettlesOnWords(content: string, pathEnv: string, files: set<string>, update: bool, words: seq<string>)
    requires IsScript(FirstLine(content))
    requires |words| > 0 && AllWords(words) && !StartsWith(words[0], "#!") && !EndsWith(words[0], "/env")
    requires Which(FileName(words[0]), pathEnv, files) == Ok(words[0])
    ensures Decide(Rewritten(content, "#!" + JoinWith(words, " ")), pathEnv, files, update) == Ok(None)
  {
    var first := FirstLine(content);
    var line := "#!" + JoinWith(words, " ");
    MarkedLineShape(words);
    RewrittenFirstLine(content, line);
    DirectFixedPoint(Rewritten(content, line), pathEnv, files, update, words, first[|TrimEnd(first)|..]);
  }

  /** Idempotence of the direct form: once a direct interpreter has been rewritten, a
      second pass with the same search path and files changes nothing, provided the
      resolved path is a single word that does not itself look like a marker or `env`. */
  lemma {:induction false} DirectRewriteSettles(content: string, pathEnv: string, files: set<string>, update: bool)
    requires Decide(content, pathEnv, files, update).Ok? && Decide(content, pathEnv, files, update).value.Some?
    requires !EndsWith(ParseShebang(FirstLine(content)).interpreter, "/env")
    requires var resolved := Which(FileName(ParseShebang(FirstLine(content)).interpreter), pathEnv, files);
      resolved.Ok? && IsWord(resolved.value) && !StartsWith(resolved.value, "#!") && !EndsWith(resolved.value, "/env")
    ensures var line := Decide(content, pathEnv, files, update).value.value;
      Decide(Rewritten(content, line), pathEnv, files, update) == Ok(None)
  {
    var sh := ParseShebang(FirstLine(content));
    var resolved := Which(FileName(sh.interpreter), pathEnv, files).value;
    DirectDecided(content, pathEnv, files, update);
    AllWordsCons(resolved, sh.args);
    FileNameIsLastSegment(sh.interpreter);
    WhichOwnFileName(FileName(sh.interpreter), pathEnv, files);
    SettlesOnWords(content, pathEnv, files, update, [resolved] + sh.args);
  }

  /** The line decided for a direct interpreter is the marker, the resolved path and
      the original arguments. */
  lemma {:induction false} DirectDecided(content: string, pathEnv: string, files: set<string>, update: bool)
    requires Decide(content, pathEnv, files, update).Ok? && Decide(content, pathEnv, files, update).value.Some?
    requires !EndsWith(ParseShebang(FirstLine(content)).interpreter, "/env")
    ensures IsScript(FirstLine(content))
    ensures var sh := ParseShebang(FirstLine(content));
      var resolved := Which(FileName(sh.interpreter), pathEnv, files);
      resolved.Ok? && Decide(content, pathEnv, files, update).value.value == "#!" + JoinWith([resolved.value] + sh.args, " ")
  {
    DecidedLine(content, pathEnv, files, update);
  }

  /** Idempotence of the plain `env` form: `env prog` rewritten to the resolved `prog`
      stays as it is on a second pass, provided `prog` is a bare name and its resolved
      path is a single word that does not itself look like a marker or `env`. */
  lemma {:induction false} PlainEnvRewriteSettles(content: string, pathEnv: string, files: set<string>, update: bool)
    requires Decide(content, pathEnv, files, update).Ok? && Decide(content, pathEnv, files, update).value.Some?
    requires var sh := ParseShebang(FirstLine(content));
      EndsWith(sh.interpreter, "/env") && |sh.args| > 0 && sh.args[0] != "-S" && '/' !in sh.args[0]
    requires var resolved := Which(ParseShebang(FirstLine(content)).args[0], pathEnv, files);
      resolved.Ok? && !StartsWith(resolved.value, "#!") && IsWord(resolved.value) && !EndsWith(resolved.value, "/env")
    ensures var line := Decide(content, pathEnv, files, update).value.value;
      Decide(Rewritten(content, line), pathEnv, files, update) == Ok(None)
  {
    var sh := ParseShebang(FirstLine(content));
    var resolved := Which(sh.args[0], pathEnv, files).value;
    PlainEnvDecided(content, pathEnv, files, update);
    WhichOwnFileName(sh.args[0], pathEnv, files);
    JoinOne(resolved);
    AllWordsOne(resolved);
    SettlesOnWords(content, pathEnv, files, update, [resolved]);
  }

  /** The line decided for a plain `env prog` shebang is the marker and the resolved
      `prog`. */
  lemma {:induction false} PlainEnvDecided(content: string, pathEnv: string, files: set<string>, update: bool)
    requires Decide(content, pathEnv, files, update).Ok? && Decide(content, pathEnv, files, update).value.Some?
    requires var sh := ParseShebang(FirstLine(content));
      EndsWith(sh.interpreter, "/env") && |sh.args| > 0 && sh.args[0] != "-S"
    ensures IsScript(FirstLine(content))
    ensures var resolved := Which(ParseShebang(FirstLine(content)).args[0], pathEnv, files);
      resolved.Ok? && Decide(content, pathEnv, files, update).value.value == "#!" + resolved.value
  {
    var sh := ParseShebang(FirstLine(content));
    DecidedLine(content, pathEnv, files, update);
    var e := EnvLine(sh.original, sh.args, pathEnv, files);
    assert e == BuildLine(sh, pathEnv, files);
    assert e == Ok("#!" + Which(sh.args[0], pathEnv, files).value);
  }

  /** The `-S` form with no argument after the program never settles: its line ends in
      a space that the next pass trims off, so the next pass rewrites the file again,
      reports the same line and leaves one more space behind it. */
  lemma {:induction false} DashSWithoutArgsNeverSettles(content: string, pathEnv: string, files: set<string>)
    requires Decide(content, pathEnv, files, true).Ok? && Decide(content, pathEnv, files, true).value.Some?
    requires var sh := ParseShebang(FirstLine(content));
      EndsWith(sh.interpreter, "/env") && |sh.args| == 2 && sh.args[0] == "-S"
    requires var envPath := Which("env", pathEnv, files);
      var progPath := Which(ParseShebang(FirstLine(content)).args[1], pathEnv, files);
      envPath.Ok? && progPath.Ok? && IsWord(envPath.value) && IsWord(progPath.value)
      && !StartsWith(envPath.value, "#!") && EndsWith(envPath.value, "/env") && StartsWith(progPath.value, "/")
    ensures var line := Decide(content, pathEnv, files, true).value.value;
      var rest := content[|TrimEnd(FirstLine(content))|..];
      && Rewritten(content, line) == line + rest
      && Decide(Rewritten(content, line), pathEnv, files, true) == Ok(Some(line))
      && Rewritten(Rewritten(content, line), line) == line + " " + rest
  {
    var sh := ParseShebang(FirstLine(content));
    var envPath := Which("env", pathEnv, files).value;
    var progPath := Which(sh.args[1], pathEnv, files).value;
    DecidedLine(content, pathEnv, files, true);
    DashSLine(sh.original, sh.args, pathEnv, files);
    assert "#!" + JoinWith([envPath, "-S", progPath], " ") + " " == Decide(content, pathEnv, files, true).value.value;
    DashSWords(envPath, progPath);
    WhichAbsolute(progPath, pathEnv, files);
    DashSRewrite(content, envPath, progPath, pathEnv, files);
  }

  /** Both passes over a script rewritten to an `env -S prog` line without arguments. */
  lemma {:induction false} DashSRewrite(content: string, envPath: string, progPath: string, pathEnv: string, files: set<string>)
    requires IsScript(FirstLine(content))
    requires Which("env", pathEnv, files) == Ok(envPath) && EndsWith(envPath, "/env")
    requires Which(progPath, pathEnv, files).Ok? && StartsWith(progPath, "/")
    requires AllWords([envPath, "-S", progPath]) && !StartsWith(envPath, "#!")
    ensures var line := "#!" + JoinWith([envPath, "-S", progPath], " ") + " ";
      var rest := content[|TrimEnd(FirstLine(content))|..];
      && Rewritten(content, line) == line + rest
      && Decide(Rewritten(content, line), pathEnv, files, true) == Ok(Some(line))
      && Rewritten(Rewritten(content, line), line) == line + " " + rest
  {
    var first := FirstLine(content);
    var words := [envPath, "-S", progPath];
    var bare := "#!" + JoinWith(words, " ");
    var line := bare + " ";
    var original := TrimEnd(first);
    MarkedLineShape(words);
    RewrittenFirstLine(content, line);
    RewriteOnlyFirstLine(content, line);
    var once := Rewritten(content, line);
    var rest := content[|original|..];
    var trailing := first[|original|..];
    AppendAssoc(bare, " ", trailing);
    AppendAssoc(bare, " ", rest);
    SpaceThenWhitespace(trailing);
    DashSSecondPass(once, envPath, progPath, " " + trailing, " " + rest, pathEnv, files);
    AppendAssoc(line, " ", rest);
  }

  /** The second pass over a `-S` line without arguments: the trimmed line is the
      marker and the three words, and the same line, one space longer, replaces it. */
  lemma {:induction false} DashSSecondPass(once: string, envPath: string, progPath: string, trailing: string, rest: string,
                        pathEnv: string, files: set<string>)
    requires Which("env", pathEnv, files) == Ok(envPath) && EndsWith(envPath, "/env")
    requires Which(progPath, pathEnv, files).Ok? && StartsWith(progPath, "/")
    requires AllWords([envPath, "-S", progPath]) && !StartsWith(envPath, "#!")
    requires |trailing| > 0 && trailing[0] == ' ' && AllWhitespace(trailing)
    requires FirstLine(once) == "#!" + JoinWith([envPath, "-S", progPath], " ") + trailing
    requires once == "#!" + JoinWith([envPath, "-S", progPath], " ") + rest
    ensures var line := "#!" + JoinWith([envPath, "-S", progPath], " ") + " ";
      && Decide(once, pathEnv, files, true) == Ok(Some(line))
      && Rewritten(once, line) == line + rest
  {
    var words := [envPath, "-S", progPath];
    var bare := "#!" + JoinWith(words, " ");
    var line := bare + " ";
    ParseBuiltLine(words, trailing);
    MarkedIsScript(JoinWith(words, " "), trailing);
    assert words[1..] == ["-S", progPath];
    WhichAbsolute(progPath, pathEnv, files);
    DashSLine(bare, ["-S", progPath], pathEnv, files);
    RewriteOnlyFirstLine(once, line);
    DropPrefix(bare, rest);
  }

  /** Two words around `-S` are three words. */
  lemma {:induction false} DashSWords(envPath: string, progPath: string)
    requires IsWord(envPath) && IsWord(progPath)
    ensures AllWords([envPath, "-S", progPath])
  {
  }

  /** One word joined is that word. */
  lemma {:induction false} JoinOne(w: string)
    ensures JoinWith([w], " ") == w
  {
  }

  /** Dropping a prefix leaves what followed it. */
  lemma {:induction false} DropPrefix(a: string, b: string)
    ensures (a + b)[|a|..] == b
  {
  }

  /** Overwriting a map entry and then putting its old value back gives the map back. */
  lemma {:induction false} RestoredEntry<K, V>(m: map<K, V>, k: K, v: V)
    requires k in m
    ensures m[k := v][k := m[k]] == m
  {
  }

  /** The file system as `process_file` sees it: which paths are regular files, and
      each file's content and modification time. */
  class FileSystem {
    var files: set<string>
    var content: map<string, string>
    var mtime: map<string, int>

    ghost predicate Valid()
      reads this
    {
      content.Keys == files && mtime.Keys == files
    }

    constructor (content: map<string, string>, mtime: map<string, int>)
      requires content.Keys == mtime.Keys
      ensures Valid() && files == content.Keys
      ensures this.content == content && this.mtime == mtime
    {
      files := content.Keys;
      this.content := content;
      this.mtime := mtime;
    }

    /** `which_in_path`: the search path entries in order, stopping at the first
        candidate that is a regular file. */
    method WhichInPath(program: string, pathEnv: string) returns (r: Result<string>)
      ensures r == Which(program, pathEnv, files)
    {
      var dirs := SplitPaths(pathEnv);
      for i := 0 to |dirs|
        invariant WhichFrom(program, dirs, i, files) == Which(program, pathEnv, files)
      {
        var fullPath := Candidate(dirs[i], program);
        if fullPath in files {
          return Ok(fullPath);
        }
      }
      return Err(NotFound(program));
    }

    /** The line-building half of `process_file`: the `env` branches drop `-S` and
        the program off the front of the arguments, the direct branch resolves the
        interpreter's file name. */
    method NewInterpreterLine(sh: Shebang, pathEnv: string) returns (r: Result<string>)
      ensures r == BuildLine(sh, pathEnv, files)
    {
      var args := sh.args;
      if EndsWith(sh.interpreter, "/env") {
        if |args| > 0 {
          var firstArg := args[0];
          if firstArg == "-S" {
            args := args[1..];
            if |args| == 0 {
              return Err(InvalidShebang(sh.original));
            }
            var prog := args[0];
            args := args[1..];
            var progPath := WhichInPath(prog, pathEnv);
            if progPath.Err? {
              return Err(progPath.error);
            }
            var envPath := WhichInPath("env", pathEnv);
            if envPath.Err? {
              return Err(envPath.error);
            }
            return Ok("#!" + (envPath.value + " -S " + progPath.value + " " + JoinWith(args, " ")));
          } else if StartsWith(firstArg, "-") || '=' in firstArg {
            return Err(UnsupportedShebang(sh.original));
          } else {
            var progPath := WhichInPath(firstArg, pathEnv);
            if progPath.Err? {
              return Err(progPath.error);
            }
            return Ok("#!" + progPath.value);
          }
        } else {
          return Err(InvalidShebang(sh.original));
        }
      } else {
        var base := FileName(sh.interpreter);
        var resolved := WhichInPath(base, pathEnv);
        if resolved.Err? {
          return Err(resolved.error);
        }
        return Ok("#!" + JoinWith([resolved.value] + args, " "));
      }
    }

    /** `fs::write`: the file holds `data` and was modified at `now`. */
    method Write(path: string, data: string, now: int)
      requires Valid()
      modifies this
      ensures Valid()
      ensures files == old(files) + {path}
      ensures content == old(content)[path := data]
      ensures mtime == old(mtime)[path := now]
    {
      files := files + {path};
      content := content[path := data];
      mtime := mtime[path := now];
    }

    /** `filetime::set_file_mtime` on an existing file. */
    method SetFileMtime(path: string, time: int)
      requires Valid() && path in files
      modifies this
      ensures Valid() && files == old(files) && content == old(content)
      ensures mtime == old(mtime)[path := time]
    {
      mtime := mtime[path := time];
    }

    /** `process_file`: the result is `Decide` of the file's content; the content
        changes only when a new line is returned, and then by the rewrite alone; no
        modification time changes; a missing file is an I/O error. */
    method ProcessFile(path: string, pathEnv: string, update: bool, now: int) returns (r: Result<Option<string>>)
      requires Valid()
      modifies this
      ensures Valid() && files == old(files) && mtime == old(mtime)
      ensures path !in files ==> r == Err(Io(path)) && content == old(content)
      ensures path in files ==> r == Decide(old(content)[path], pathEnv, files, update)
      ensures path in files && r.Ok? && r.value.Some? ==>
        content == old(content)[path := Rewritten(old(content)[path], r.value.value)]
      ensures path in files && !(r.Ok? && r.value.Some?) ==> content == old(content)
    {
      if path !in files {
        return Err(Io(path));
      }
      var firstLine := FirstLine(content[path]);
      if |firstLine| == 0 || !StartsWith(firstLine, "#!") {
        return Ok(None);
      }
      var sh := ParseShebang(firstLine);
      var line := NewInterpreterLine(sh, pathEnv);
      if line.Err? {
        return Err(line.error);
      }
      if ShouldWrite(sh, line.value, update) {
        var text := content[path];
        var updated := ReplaceFirst(text, sh.original, line.value);
        var modified := mtime[path];
        Write(path, updated, now);
        SetFileMtime(path, modified);
        RestoredEntry(old(mtime), path, now);
        return Ok(Some(line.value));
      }
      return Ok(None);
    }
  }
}
