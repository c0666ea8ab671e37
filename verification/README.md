# patchShebangs in Dafny

A Dafny model of the shebang rewriter of `patchShebangs` (the Rust port in
`src/main.rs`). The rewriter handles one file at a time:

- it reads the file's first line;
- when that line starts with `#!`, it takes it apart into an interpreter and its
  arguments;
- it resolves the interpreter against a colon-separated search path, either directly
  or through `env` and `env -S`;
- when the new line differs from the old one and the update policy allows it, it
  rewrites that line in place and puts the file's modification time back.

The project has four modules:

- `Results` (`results.dfy`) holds the error kinds of `process_file` and
  `which_in_path`, and the `Option`/`Result` wrappers.
- `Text` (`text.dfy`) holds the `str` operations the rewriter relies on, over
  `seq<char>`: `trim_end`, `trim_start`, `trim`, `trim_start_matches("#!")`,
  `split_whitespace`, `join`, `read_line`'s first line and `replacen(…, 1)`. The
  trimming functions are pinned down by their own contracts. `split_whitespace` is
  characterised by lemmas: whitespace in front, between words or at the end adds no
  word, a string of whitespace has none, and words laid out with whitespace runs of
  any length split back into exactly those words.
- `Resolver` (`resolver.dfy`) holds `which_in_path` as a function:
  - the search path is split on `:` the way `std::env::split_paths` does it;
  - each entry is joined with the program name the way `PathBuf::join` does it;
  - the result is the first candidate that is a regular file.

  Lemmas characterise the result as the first hit and cover absolute names, empty
  entries and the empty search path.
- `Rewriter` (`rewriter.dfy`) holds the pure part of `process_file`: parsing, the
  `env`, `env -S` and direct branches, the write rule and the rewritten content. It
  also holds lemmas about them: a line of markers, words and whitespace parses into
  its words; a bad `env` usage or an interpreter that is not found ends
  `process_file` with that error; and idempotence: a second pass over a
  rewritten file changes nothing for the direct and plain `env` forms, and
  `env -S prog` without further arguments never settles. Last comes the imperative
  `FileSystem` class. Its `WhichInPath` loop, `NewInterpreterLine` and
  `ProcessFile` are each proved equal to the pure definitions, and `ProcessFile`
  keeps every modification time unchanged.

The search path string and the set of regular files are explicit parameters. The
file system is the `FileSystem` object's `files`, `content` and `mtime` fields.

Behaviour of the code that is easy to misread:

- `env` is recognised only as a path ending in `/env` (`src/main.rs:77`). A bare
  `#!env python` therefore goes down the direct branch and resolves `env` itself.
- An empty search path is one empty entry (`split_paths("")`), not a lookup failure.
  The program name is then tried as a relative path (`Resolver.WhichEmptyPath`).
- The `-S` line is formatted with a space before the joined remaining arguments
  (`src/main.rs:88`), so with no remaining argument it ends in a space.
  `Rewriter.DashSWithoutArgsNeverSettles` shows that such a file is rewritten again
  on every later pass, one space longer each time.
- The store-prefix test is a plain string prefix test on `/nix/store`, so an
  interpreter under `/nix/storefoo` also counts as being in the store.

## Model

| member | source | states |
|---|---|---|
| Text.TrimEnd | src/main.rs:70 | the result is a prefix of the line, everything it drops is whitespace, and it does not itself end in whitespace |
| Text.TrimEndAfterWhitespace | src/main.rs:70 | trimming the end of a string that does not end in whitespace, followed by whitespace, gives exactly that string |
| Text.TrimStart | src/main.rs:71 | the result is a suffix, everything dropped in front is whitespace, and it does not start with whitespace |
| Text.Trim | src/main.rs:71 | the result is the slice of the input between its leading and its trailing whitespace: everything around it is whitespace, and it neither starts nor ends with whitespace |
| Text.TrimFramed | src/main.rs:71 | trimming the end of what trimming the start left is framed by whitespace in the original string |
| Text.TrimOfTrimmed | src/main.rs:71 | trimming is the identity on strings with no whitespace at either end |
| Text.TrimMarkers | src/main.rs:71 | the result is a suffix that does not start with `#!`, what it drops is a run of whole `#!` markers and nothing else, and it differs from the input only when the input starts with `#!` |
| Text.TrimMarkersOnce | src/main.rs:71 | one marker in front of a string that does not start with a marker is removed exactly |
| Text.TrimMarkersAll | src/main.rs:71 | any run of whole markers in front of a string that does not start with a marker is removed, and exactly it |
| Text.TrimEndAppend | src/main.rs:70-71 | trimming the end of a string after a part that does not end in whitespace trims only the second part, so the markers before the rest are kept |
| Text.WordLength | src/main.rs:73 | the length of the leading run of non-whitespace characters: everything before it is non-whitespace, and it stops at whitespace or at the end |
| Text.SplitWhitespace | src/main.rs:73-75 | every word produced is non-empty and holds no whitespace; which words they are is stated by `SplitSpread`, `NoWords` and `SplitJoinedWords` |
| Text.NoWords | src/main.rs:73-74 | a string has no word exactly when it is all whitespace, so the interpreter is empty exactly for a marker followed by whitespace |
| Text.SplitAfterWhitespace | src/main.rs:73 | whitespace in front of a string adds no word |
| Text.SplitDropTrailing | src/main.rs:73 | whitespace after a string adds no word |
| Text.SplitOfTrim | src/main.rs:71-73 | trimming before splitting adds or removes no word |
| Text.SplitOfTrimEnd | src/main.rs:70-73 | trimming the end before splitting adds or removes no word |
| Text.SplitSpread | src/main.rs:73-75 | leading whitespace followed by words separated by non-empty whitespace runs of any length, with any whitespace at the end, splits into exactly those words, in order |
| Text.SplitJoinedWords | src/main.rs:73-75 | splitting words joined by single spaces gives back exactly those words, in order |
| Text.JoinWithAppend | src/main.rs:106-107 | joining two non-empty lists puts one separator between the two joins |
| Text.JoinWithHead | src/main.rs:106-107 | joining a head and further parts is the head followed by each part with one separator in front of it |
| Text.JoinWith | src/main.rs:88 | `[&str]::join`: the parts with the separator between neighbours; its shape is stated by `JoinWithAppend`, `JoinWithHead` and `SplitJoinedWords` |
| Text.JoinedWordsShape | src/main.rs:106-107 | words joined by spaces start with the first word's first character, end in non-whitespace and hold no newline |
| Text.DashSFormat | src/main.rs:88 | the `-S` format is the marker and the words `env`, `-S`, the program and the rest joined by single spaces, plus one trailing space exactly when the rest is empty |
| Text.FirstLine | src/main.rs:65 | what `read_line` reads is a prefix of the content, empty only for empty content, has no newline before its last character, and is all the content when it holds no newline |
| Text.FirstLineAfter | src/main.rs:65 | the first line reads through a newline-free prefix |
| Text.FindFrom | src/main.rs:114 | the leftmost occurrence of the pattern at or after the start index, or none when there is none |
| Text.ReplaceFirst | src/main.rs:114 | a pattern at the start is replaced there and the rest kept; content without the pattern is unchanged |
| Resolver.SplitPaths | src/main.rs:131 | the search path splits into at least one entry, none holding a colon |
| Resolver.SplitPathsJoin | src/main.rs:131 | the entries joined by colons give back the search path, so no character is lost and empty entries are kept |
| Resolver.JoinPath | src/main.rs:133 | an absolute name replaces the directory; an empty directory or one ending in `/` is followed directly by the name; any other directory is followed by exactly one `/` and the name |
| Resolver.JoinPathEnds | src/main.rs:133 | the joined path ends with the name and, for a relative name, starts with a non-empty directory |
| Resolver.FileName | src/main.rs:100-103 | the part of the interpreter after its last `/`, as `FileNameIsLastSegment` states |
| Resolver.FileNameIsLastSegment | src/main.rs:100-103 | the lookup name is the part of the interpreter after its last `/`: it holds no `/`, ends the path and is the whole path or follows a `/` |
| Resolver.FileNameOfJoin | src/main.rs:100-103 | a bare name joined onto any directory is the file name of the joined path |
| Resolver.WhichFrom | src/main.rs:132-138 | an `Ok` result is the candidate of the first entry from the start index on whose candidate is a regular file; `NotFound` means no such entry has one |
| Resolver.Which | src/main.rs:130-139 | a found path is a regular file, and the only failure is `NotFound` of the program |
| Resolver.WhichFirstHit | src/main.rs:130-139 | the lookup succeeds exactly when some entry's candidate is a regular file, and then returns the first such candidate |
| Resolver.WhichAt | src/main.rs:134-135 | a hit at an entry after misses at every earlier entry is the result |
| Resolver.WhichNone | src/main.rs:138 | misses at every entry give `NotFound` of the program |
| Resolver.WhichAbsolute | src/main.rs:130-139 | an absolute program name is found whatever the search path exactly when it is itself a regular file |
| Resolver.EmptyEntryBareName | src/main.rs:131-133 | an empty entry anywhere in the search path, as in `a::b`, tries the bare program name |
| Resolver.WhichEmptyPath | src/main.rs:130-139 | with an empty search path the bare name is tried as a relative path, and only it |
| Rewriter.ParseShebang | src/main.rs:70-75 | the original line is the first line without trailing whitespace; the interpreter and arguments are whitespace-free words, and no interpreter means no arguments; which words they are is stated by `ParseMarked` and `ParseLaidOut` |
| Rewriter.IsScript | src/main.rs:66 | a file is a script when something was read and the first line starts with `#!` |
| Rewriter.ParseMarked | src/main.rs:70-75 | for any run of markers followed by text that does not start with one, the original is the markers and the text without trailing whitespace, the interpreter is the first word of the text and the arguments are its other words, in order |
| Rewriter.ParseLaidOut | src/main.rs:66-75 | a line of one or more markers, whitespace, words separated by whitespace runs of any length and trailing whitespace (`#! /bin/sh -e`, tabs, `#!#!/bin/sh`) is a script whose interpreter is the first word and whose arguments are the others, in order |
| Rewriter.ParseBuiltLine | src/main.rs:70-75 | a line made of the marker and words joined by single spaces, the first word not starting with a marker, parses back into those words whatever whitespace follows |
| Rewriter.EnvLine | src/main.rs:77-97 | `InvalidShebang` exactly for no argument or a lone `-S`; `UnsupportedShebang` exactly for a first argument other than `-S` that starts with `-` or holds `=`; for `-S` a missing program gives `NotFound` of the program, then a missing `env` gives `NotFound` of `env`, and with both found the line is built; for a plain program a missing one gives its `NotFound` and a found one a line; a success starts with the marker |
| Rewriter.DashSLine | src/main.rs:80-88 | `env -S prog rest` becomes the resolved `env`, `-S`, the resolved program and the rest in order, one space apart, with one trailing space when the rest is empty |
| Rewriter.PlainEnvIgnoresLaterArgs | src/main.rs:91-93 | `env prog args` resolves to `#!` and the resolved program alone: the arguments after the program do not matter |
| Rewriter.DirectLine | src/main.rs:99-107 | the line fails exactly when the interpreter's file name is not found, and then with `NotFound` of that name; a success starts with the marker |
| Rewriter.DirectLineShape | src/main.rs:99-107 | a direct line is the marker and the resolved path, then each original argument in order with one space in front of it |
| Rewriter.DirectIgnoresDirectory | src/main.rs:100-105 | interpreters with the same file name give the same line: the directory they were written with does not matter |
| Rewriter.BuildLine | src/main.rs:77-108 | every line built starts with the `#!` marker |
| Rewriter.ShouldWrite | src/main.rs:110-111 | the write rule: the line changed, and an update is forced or the interpreter is outside `/nix/store`; `WriteDecision` states it of `Decide` |
| Rewriter.Decide | src/main.rs:60-127 | the pure `process_file` over a file's content; `DecideWrites`, `DecideError`, `WriteDecision` and `DecidedLine` state what it returns |
| Rewriter.DecideWrites | src/main.rs:60-127 | a non-script gives no result; a rewrite happens only for a script, always changes the line and keeps the marker, and without an update never touches a store interpreter |
| Rewriter.DecideError | src/main.rs:77-108 | a script whose line cannot be built fails with that line's error: a bad `env` usage or an interpreter that is not found ends `process_file` |
| Rewriter.DashSWithoutProgramRejected | src/main.rs:80-84 | an `env` shebang whose only argument is `-S` fails with `InvalidShebang` of the original line, whatever the search path |
| Rewriter.EnvOptionRejected | src/main.rs:89-90 | an `env` shebang whose first argument is another option or holds `=` fails with `UnsupportedShebang` of the original line, whatever the search path |
| Rewriter.WriteDecision | src/main.rs:110-127 | once the line is built, a rewrite happens exactly when the line changed and either an update is forced or the interpreter is outside `/nix/store` |
| Rewriter.DecidedLine | src/main.rs:110-123 | a reported new line is the line built for the file's shebang |
| Rewriter.OriginalStartsContent | src/main.rs:65-70 | the original shebang starts with the marker, starts the content and has no newline |
| Rewriter.Rewritten | src/main.rs:113-114 | the content with the first occurrence of the original line replaced by the new one; `RewriteOnlyFirstLine` states where that occurrence is |
| Rewriter.RewriteOnlyFirstLine | src/main.rs:113-114 | the rewrite replaces the original line at the very start and keeps every later character, the rest of the first line included |
| Rewriter.RewrittenFirstLine | src/main.rs:113-114 | after a rewrite the first line is the new line followed by the whitespace that ended the old one |
| Rewriter.DirectFixedPoint | src/main.rs:99-111 | a line of words whose interpreter resolves to itself is left alone |
| Rewriter.WhichOwnFileName | src/main.rs:100-105 | a path found for a bare name is found again by its own file name |
| Rewriter.SettlesOnWords | src/main.rs:99-114 | rewriting a first line to words whose interpreter resolves to itself gives a file that the next pass leaves alone |
| Rewriter.DirectDecided | src/main.rs:99-107 | the line reported for a direct interpreter is the marker, the resolved path and the original arguments |
| Rewriter.DirectRewriteSettles | src/main.rs:99-114 | after a direct interpreter is rewritten, a second pass with the same search path and files changes nothing |
| Rewriter.PlainEnvDecided | src/main.rs:91-93 | the line reported for a plain `env prog` is the marker and the resolved program |
| Rewriter.PlainEnvRewriteSettles | src/main.rs:91-114 | after `env prog` is rewritten to the resolved program, a second pass changes nothing |
| Rewriter.DashSWithoutArgsNeverSettles | src/main.rs:80-114 | `env -S prog` with nothing after it is rewritten with a trailing space, and the next pass rewrites it again to the same reported line, leaving one more space |
| Rewriter.DashSRewrite | src/main.rs:80-114 | both passes over a script rewritten to a `-S` line without arguments |
| Rewriter.DashSSecondPass | src/main.rs:80-114 | the second pass over such a line reports the same line and inserts it in front of what followed |
| Rewriter.FileSystem.WhichInPath | src/main.rs:130-139 | the loop over the search path entries returns exactly the pure lookup's result; its invariant is that searching from the current entry on gives that result |
| Rewriter.FileSystem.NewInterpreterLine | src/main.rs:77-108 | the argument-popping branches build exactly the pure replacement line, errors included |
| Rewriter.FileSystem.Write | src/main.rs:120 | the file holds the new data and was modified now; no other file changes |
| Rewriter.FileSystem.SetFileMtime | src/main.rs:121 | only the given file's modification time changes |
| Rewriter.FileSystem.ProcessFile | src/main.rs:60-128 | a missing file is an I/O error. Otherwise the result is `Decide` of the file's content. The content changes exactly when a new line is reported, and then only by the rewrite. The set of files and every modification time are unchanged |

## Left out

- The command line (`clap`), reading `PATH`/`HOST_PATH` from the environment, and
  `main`: the search path string is a parameter.
- `patch_shebangs_in_path` (`src/main.rs:43-58`): the directory walk, the executable
  bit filter and the console messages are orchestration around `process_file` and
  are not modelled.
- Real I/O is collapsed into the `FileSystem` object. Opening a missing file is
  `Err(Io(path))`. Other I/O failures (read, stat, write, set-mtime) and invalid UTF-8
  in a file are not modelled: for a file that exists, every call succeeds.
- Rewriter.FileSystem.Write: `fs::write` is given the write time as a parameter
  `now`, since the clock is outside the model.
- Rewriter.FileSystem.SetFileMtime: requires the file to exist, since a failing
  `set_file_mtime` is not modelled.
- Concurrent changes to the file between reading its first line and rewriting it are
  not modelled: the model reads the content once.
- Text.TrimEnd, Text.TrimStart, Text.SplitWhitespace: whitespace is the ASCII part of
  Unicode's White_Space property. Non-ASCII whitespace such as U+0085 or U+00A0 is not
  treated as whitespace.
- Text.SplitWhitespace: its own contract says only that the words are whitespace-free
  and non-empty. Which words they are is stated by `Text.SplitSpread` for any layout
  of words and whitespace runs, and by `Text.NoWords` for all-whitespace input.
- Rewriter.ParseShebang: its own contract gives the shape of the result only. The
  interpreter and arguments are tied to the line's words by `Rewriter.ParseMarked`
  and `Rewriter.ParseLaidOut`, which cover any line of markers, words and whitespace.
- Resolver.FileName: `Path::file_name` is simplified to the text after the last `/`.
  A trailing `/`, a final `.` or `..` component, and the `unwrap_or(interpreter)`
  fallback for a path without a file name are not modelled as Rust treats them.
- Resolver.JoinPath: paths are strings with no normalisation, symbolic links or
  aliasing, and `to_string_lossy` is the identity.
- The two `InvalidShebang` messages (`src/main.rs:83` and `:96`) are one
  constructor carrying the offending line, and the text of error messages is not
  modelled.
- Rewriter.DirectRewriteSettles: holds only when the resolved path is a single word
  that does not start with `#!` and does not end in `/env`; a search path entry with
  whitespace, for instance, breaks it.
- Rewriter.PlainEnvRewriteSettles: holds under the same conditions, and only when
  the program after `env` is a bare name without `/`.
- Rewriter.DashSWithoutArgsNeverSettles: stated for `--update` runs, with a resolved
  `env` ending in `/env` and an absolute resolved program.
