/** The string operations of Rust's `str` that the shebang rewriter relies on, over
    `seq<char>`: trimming, splitting into words, joining, reading the first line and
    replacing the first occurrence of a pattern. Whitespace is the ASCII part of
    Unicode's White_Space property (U+0009 to U+000D and the space). */
module Text {
  import opened Results

  predicate IsWhitespace(c: char) {
    c == ' ' || c == '\t' || c == '\n' || c == '\U{B}' || c == '\U{C}' || c == '\r'
  }

  predicate AllWhitespace(s: string) {
    forall i :: 0 <= i < |s| ==> IsWhitespace(s[i])
  }

  /** A non-empty run of non-whitespace characters: what `split_whitespace` yields. */
  predicate IsWord(s: string) {
    |s| > 0 && forall i :: 0 <= i < |s| ==> !IsWhitespace(s[i])
  }

  predicate AllWords(words: seq<string>) {
    forall i :: 0 <= i < |words| ==> IsWord(words[i])
  }

  lemma {:induction false} AllWordsCons(w: string, words: seq<string>)
    requires IsWord(w) && AllWords(words)
    ensures AllWords([w] + words)
  {
  }

  lemma {:induction false} SpaceThenWhitespace(w: string)
    requires AllWhitespace(w)
    ensures AllWhitespace(" " + w)
  {
  }

  lemma {:induction false} AllWordsUncons(words: seq<string>)
    requires |words| > 0 && AllWords(words)
    ensures IsWord(words[0]) && AllWords(words[1..])
  {
  }

  lemma {:induction false} AllWordsOne(w: string)
    requires IsWord(w)
    ensures AllWords([w])
  {
  }

  predicate StartsWith(s: string, prefix: string) {
    |prefix| <= |s| && s[..|prefix|] == prefix
  }

  predicate EndsWith(s: string, suffix: string) {
    |suffix| <= |s| && s[|s| - |suffix|..] == suffix
  }

  predicate NoNewline(s: string) {
    forall i :: 0 <= i < |s| ==> s[i] != '\n'
  }

  /** `str::trim_end`: the longest prefix of `s` that does not end in whitespace. */
  function TrimEnd(s: string): (r: string)
    ensures StartsWith(s, r)
    ensures AllWhitespace(s[|r|..])
    ensures r == [] || !IsWhitespace(r[|r| - 1])
  {
    if s == [] || !IsWhitespace(s[|s| - 1]) then s
    else
      var r := TrimEnd(s[..|s| - 1]);
      TrailStep(s, r);
      r
  }

  /** A whitespace character after a string followed by trailing whitespace joins
      that whitespace. */
  lemma {:induction false} TrailStep(s: string, r: string)
    requires s != [] && IsWhitespace(s[|s| - 1])
    requires StartsWith(s[..|s| - 1], r) && AllWhitespace(s[..|s| - 1][|r|..])
    ensures StartsWith(s, r) && AllWhitespace(s[|r|..])
  {
    assert s[..|r|] == s[..|s| - 1][..|r|];
    assert s[|r|..] == s[..|s| - 1][|r|..] + [s[|s| - 1]];
  }

  /** `TrimEnd` keeps every character up to the last one that is not whitespace. */
  lemma {:induction false} TrimEndKeeps(s: string, i: nat)
    requires i < |s| && !IsWhitespace(s[i])
    ensures i < |TrimEnd(s)|
  {
  }

  /** Trailing whitespace is exactly what `TrimEnd` removes. */
  lemma {:induction false} TrimEndAfterWhitespace(x: string, w: string)
    requires x == [] || !IsWhitespace(x[|x| - 1])
    requires AllWhitespace(w)
    ensures TrimEnd(x + w) == x
    decreases |w|
  {
    if w == [] {
      assert x + w == x;
    } else {
      assert (x + w)[..|x + w| - 1] == x + w[..|w| - 1];
      TrimEndAfterWhitespace(x, w[..|w| - 1]);
    }
  }

  /** When the first part does not end in whitespace, trimming the end of a
      concatenation trims only its second part. */
  lemma {:induction false} TrimEndAppend(x: string, y: string)
    requires x == [] || !IsWhitespace(x[|x| - 1])
    ensures TrimEnd(x + y) == x + TrimEnd(y)
  {
    var e := TrimEnd(y);
    var xe := x + e;
    assert y == e + y[|e|..];
    AppendAssoc(x, e, y[|e|..]);
    assert xe == [] || !IsWhitespace(xe[|xe| - 1]) by {
      if e != [] {
        assert xe[|xe| - 1] == e[|e| - 1];
      } else {
        assert xe == x;
      }
    }
    TrimEndAfterWhitespace(xe, y[|e|..]);
  }

  /** A prefix of a string that does not start with `p` does not start with `p`
      either. */
  lemma {:induction false} PrefixNotStarting(s: string, x: string, p: string)
    requires StartsWith(s, x) && !StartsWith(s, p)
    ensures !StartsWith(x, p)
  {
    if |p| <= |x| {
      assert x[..|p|] == s[..|p|];
    }
  }

  /** `str::trim_start`: the longest suffix of `s` that does not start with whitespace. */
  function TrimStart(s: string): (r: string)
    ensures EndsWith(s, r)
    ensures AllWhitespace(s[..|s| - |r|])
    ensures r == [] || !IsWhitespace(r[0])
  {
    if s == [] || !IsWhitespace(s[0]) then s
    else
      var r := TrimStart(s[1..]);
      LeadStep(s, r);
      r
  }

  /** A whitespace character in front of a string framed by leading whitespace
      joins that whitespace. */
  lemma {:induction false} LeadStep(s: string, r: string)
    requires s != [] && IsWhitespace(s[0])
    requires EndsWith(s[1..], r) && AllWhitespace(s[1..][..|s| - 1 - |r|])
    ensures EndsWith(s, r) && AllWhitespace(s[..|s| - |r|])
  {
    assert s[|s| - |r|..] == s[1..][|s| - 1 - |r|..];
    assert s[..|s| - |r|] == [s[0]] + s[1..][..|s| - 1 - |r|];
  }

  /** `r` sits in `s` at index `i`, with only whitespace before and after it. */
  predicate Framed(s: string, i: nat, r: string) {
    && i + |r| <= |s|
    && s[i..i + |r|] == r
    && AllWhitespace(s[..i])
    && AllWhitespace(s[i + |r|..])
  }

  /** `str::trim`: the part of `s` between its leading and its trailing whitespace. */
  function Trim(s: string): (r: string)
    ensures exists i: nat :: Framed(s, i, r)
    ensures r == [] || (!IsWhitespace(r[0]) && !IsWhitespace(r[|r| - 1]))
  {
    var t := TrimStart(s);
    var r := TrimEnd(t);
    TrimFramed(s, t, r);
    r
  }

  /** Trimming the end of what trimming the start left gives a framed part. */
  lemma {:induction false} TrimFramed(s: string, t: string, r: string)
    requires EndsWith(s, t) && AllWhitespace(s[..|s| - |t|])
    requires StartsWith(t, r) && AllWhitespace(t[|r|..])
    ensures Framed(s, |s| - |t|, r)
  {
    var i := |s| - |t|;
    assert s[i..] == t;
    assert s[i..i + |r|] == t[..|r|];
    assert s[i + |r|..] == t[|r|..];
  }

  /** A string with no whitespace at either end is left alone by `Trim`. */
  lemma {:induction false} TrimOfTrimmed(s: string)
    requires s == [] || (!IsWhitespace(s[0]) && !IsWhitespace(s[|s| - 1]))
    ensures Trim(s) == s
  {
  }

  /** `p` is the marker `#!` repeated zero or more times. */
  predicate AllMarkers(p: string)
    decreases |p|
  {
    p == [] || (StartsWith(p, "#!") && AllMarkers(p[2..]))
  }

  /** `str::trim_start_matches("#!")`: every leading `#!` removed, not just one. What
      is dropped is markers only, and what is kept does not start with one. */
  function TrimMarkers(s: string): (r: string)
    ensures EndsWith(s, r)
    ensures AllMarkers(s[..|s| - |r|])
    ensures !StartsWith(r, "#!")
    ensures r != s ==> StartsWith(s, "#!")
    decreases |s|
  {
    if StartsWith(s, "#!") then
      var r := TrimMarkers(s[2..]);
      assert s[|s| - |r|..] == s[2..][|s| - 2 - |r|..];
      var dropped := s[..|s| - |r|];
      assert dropped[..2] == s[..2];
      assert dropped[2..] == s[2..][..|s| - 2 - |r|];
      r
    else
      assert s[..|s| - |s|] == [];
      s
  }

  /** A non-empty run of markers ends in `!`. */
  lemma {:induction false} MarkersEnd(m: string)
    requires AllMarkers(m) && m != []
    ensures m[|m| - 1] == '!'
    decreases |m|
  {
    if m[2..] == [] {
      assert m[1] == m[..2][1];
    } else {
      MarkersEnd(m[2..]);
    }
  }

  /** Any run of markers in front of a string that does not start with one is removed
      exactly. */
  lemma {:induction false} TrimMarkersAll(m: string, x: string)
    requires AllMarkers(m) && !StartsWith(x, "#!")
    ensures TrimMarkers(m + x) == x
    decreases |m|
  {
    if m == [] {
      assert m + x == x;
    } else {
      assert (m + x)[..2] == m[..2];
      assert (m + x)[2..] == m[2..] + x;
      TrimMarkersAll(m[2..], x);
    }
  }

  /** One marker in front of a string that does not start with one is removed exactly. */
  lemma {:induction false} TrimMarkersOnce(x: string)
    requires !StartsWith(x, "#!")
    ensures TrimMarkers("#!" + x) == x
  {
    assert ("#!" + x)[2..] == x;
  }

  /** The length of the leading run of non-whitespace characters. */
  function WordLength(s: string): (n: nat)
    ensures n <= |s|
    ensures forall i :: 0 <= i < n ==> !IsWhitespace(s[i])
    ensures n == |s| || IsWhitespace(s[n])
  {
    if s == [] || IsWhitespace(s[0]) then 0 else 1 + WordLength(s[1..])
  }

  /** `str::split_whitespace`: the words of `s`, in order (`SplitSpread` gives them
      for any layout of words and whitespace). */
  function SplitWhitespace(s: string): (r: seq<string>)
    ensures AllWords(r)
    decreases |s|
  {
    var t := TrimStart(s);
    if t == [] then []
    else
      var n := WordLength(t);
      var rest := SplitWhitespace(t[n..]);
      assert IsWord(t[..n]);
      AllWordsCons(t[..n], rest);
      [t[..n]] + rest
  }

  /** `[&str]::join(sep)`: the parts with `sep` between neighbours. */
  function JoinWith(parts: seq<string>, sep: string): string {
    if |parts| == 0 then []
    else if |parts| == 1 then parts[0]
    else parts[0] + sep + JoinWith(parts[1..], sep)
  }

  /** Each part preceded by its own separator. */
  function Prefixed(parts: seq<string>, sep: string): string {
    if parts == [] then [] else sep + parts[0] + Prefixed(parts[1..], sep)
  }

  /** Joining a head and further parts is the head followed by each part with its own
      separator in front. */
  lemma {:induction false} JoinWithHead(head: string, parts: seq<string>, sep: string)
    ensures JoinWith([head] + parts, sep) == head + Prefixed(parts, sep)
    decreases |parts|
  {
    if parts == [] {
      assert [head] + parts == [head];
    } else {
      assert ([head] + parts)[1..] == parts;
      JoinWithHead(parts[0], parts[1..], sep);
      HeadTail(parts);
    }
  }

  /** Joining two non-empty lists puts one separator between their joins. */
  lemma {:induction false} JoinWithAppend(a: seq<string>, b: seq<string>, sep: string)
    requires |a| > 0 && |b| > 0
    ensures JoinWith(a + b, sep) == JoinWith(a, sep) + sep + JoinWith(b, sep)
    decreases |a|
  {
    if |a| == 1 {
      assert (a + b)[1..] == b;
    } else {
      assert (a + b)[1..] == a[1..] + b;
      JoinWithAppend(a[1..], b, sep);
    }
  }

  /** The `env -S` line format is the marker and the words `a`, `-S`, `c` and the
      tail joined by single spaces, plus one trailing space when the tail is empty. */
  lemma {:induction false} DashSFormat(a: string, c: string, rest: seq<string>)
    ensures "#!" + (a + " -S " + c + " " + JoinWith(rest, " "))
      == "#!" + JoinWith([a, "-S", c] + rest, " ") + (if rest == [] then " " else "")
  {
    var head := [a, "-S", c];
    assert JoinWith(head, " ") == a + " -S " + c by {
      assert head[1..] == ["-S", c];
      assert ["-S", c][1..] == [c];
      assert JoinWith([c], " ") == c;
      assert JoinWith(["-S", c], " ") == "-S" + " " + c;
    }
    if rest == [] {
      assert head + rest == head;
    } else {
      JoinWithAppend(head, rest, " ");
    }
  }

  /** Words joined by single spaces start with the first word's first character, end
      with the last word's last character and hold no newline. */
  lemma {:induction false} JoinedWordsShape(words: seq<string>)
    requires |words| > 0 && AllWords(words)
    ensures var j := JoinWith(words, " ");
      |j| > 0 && j[0] == words[0][0] && !IsWhitespace(j[|j| - 1]) && NoNewline(j)
  {
    if |words| > 1 {
      JoinedWordsShape(words[1..]);
      var rest := JoinWith(words[1..], " ");
      assert JoinWith(words, " ") == words[0] + " " + rest;
    }
  }

  /** Words joined by single spaces start with a marker only if the first word does. */
  lemma {:induction false} JoinedNotMarked(words: seq<string>)
    requires |words| > 0 && AllWords(words) && !StartsWith(words[0], "#!")
    ensures !StartsWith(JoinWith(words, " "), "#!")
  {
    var j := JoinWith(words, " ");
    if |words| > 1 {
      JoinCons(words, " ");
      if |words[0]| >= 2 {
        assert j[..2] == words[0][..2];
      } else {
        assert j[1] == ' ';
      }
    }
  }

  lemma {:induction false} SplitWhitespaceAfterSpace(s: string)
    ensures SplitWhitespace(" " + s) == SplitWhitespace(s)
  {
    assert (" " + s)[1..] == s;
  }

  lemma {:induction false} WordLengthOfWord(w: string, rest: string)
    requires IsWord(w)
    requires rest == [] || IsWhitespace(rest[0])
    ensures WordLength(w + rest) == |w|
    decreases |w|
  {
    if |w| > 1 {
      assert (w + rest)[1..] == w[1..] + rest;
      WordLengthOfWord(w[1..], rest);
    } else {
      assert (w + rest)[1..] == rest;
    }
  }

  /** A word followed by whitespace or nothing splits off as the first word. */
  lemma {:induction false} SplitWordThen(w: string, rest: string)
    requires IsWord(w)
    requires rest == [] || IsWhitespace(rest[0])
    ensures SplitWhitespace(w + rest) == [w] + SplitWhitespace(rest)
  {
    var s := w + rest;
    assert TrimStart(s) == s;
    WordLengthOfWord(w, rest);
    assert s[..|w|] == w && s[|w|..] == rest;
  }

  /** A string has no words exactly when it is all whitespace. */
  lemma {:induction false} NoWords(s: string)
    ensures SplitWhitespace(s) == [] <==> AllWhitespace(s)
  {
    var t := TrimStart(s);
    if t == [] {
      assert s[..|s|] == s;
    } else {
      assert s[|s| - |t|] == t[0];
    }
  }

  /** The words depend only on what follows the leading whitespace. */
  lemma {:induction false} SplitSameStart(x: string, y: string)
    requires TrimStart(x) == TrimStart(y)
    ensures SplitWhitespace(x) == SplitWhitespace(y)
  {
  }

  /** Whitespace in front of a string adds no word. */
  lemma {:induction false} SplitAfterWhitespace(w: string, s: string)
    requires AllWhitespace(w)
    ensures SplitWhitespace(w + s) == SplitWhitespace(s)
    decreases |w|
  {
    if w == [] {
      assert w + s == s;
    } else {
      assert (w + s)[1..] == w[1..] + s;
      assert TrimStart(w + s) == TrimStart(w[1..] + s);
      SplitSameStart(w + s, w[1..] + s);
      SplitAfterWhitespace(w[1..], s);
    }
  }

  /** Leading whitespace stays out of the words whatever follows the string. */
  lemma {:induction false} SplitDropLead(r: string, w: string)
    ensures SplitWhitespace(r + w) == SplitWhitespace(TrimStart(r) + w)
  {
    var t := TrimStart(r);
    var lead := r[..|r| - |t|];
    assert r == lead + t;
    AppendAssoc(lead, t, w);
    SplitAfterWhitespace(lead, t + w);
  }

  /** The first word of a string that starts with one, with more text appended. */
  lemma {:induction false} SplitWordStep(t: string, w: string)
    requires t != [] && !IsWhitespace(t[0])
    requires AllWhitespace(w)
    ensures SplitWhitespace(t + w) == [t[..WordLength(t)]] + SplitWhitespace(t[WordLength(t)..] + w)
  {
    var n := WordLength(t);
    assert t + w == t[..n] + (t[n..] + w) by {
      assert t == t[..n] + t[n..];
      AppendAssoc(t[..n], t[n..], w);
    }
    SplitWordThen(t[..n], t[n..] + w);
  }

  /** Whitespace after a string adds no word. */
  lemma {:induction false} SplitDropTrailing(r: string, w: string)
    requires AllWhitespace(w)
    ensures SplitWhitespace(r + w) == SplitWhitespace(r)
    decreases |r|
  {
    var t := TrimStart(r);
    SplitDropLead(r, w);
    if t == [] {
      assert t + w == w;
      NoWords(w);
    } else {
      SplitWordStep(t, w);
      SplitDropTrailing(t[WordLength(t)..], w);
    }
  }

  /** Trimming adds or removes no word. */
  lemma {:induction false} SplitOfTrim(x: string)
    ensures SplitWhitespace(Trim(x)) == SplitWhitespace(x)
  {
    var t := TrimStart(x);
    assert Trim(x) == TrimEnd(t);
    assert SplitWhitespace(t) == SplitWhitespace(x) by {
      assert TrimStart(t) == t;
      SplitSameStart(t, x);
    }
    SplitOfTrimEnd(t);
  }

  /** Trimming the end removes no word. */
  lemma {:induction false} SplitOfTrimEnd(s: string)
    ensures SplitWhitespace(TrimEnd(s)) == SplitWhitespace(s)
  {
    var e := TrimEnd(s);
    assert s == e + s[|e|..];
    SplitDropTrailing(e, s[|e|..]);
  }

  /** Words laid out one after another, each followed by its own run of whitespace. */
  function Spread(words: seq<string>, gaps: seq<string>): string
    requires |gaps| == |words|
  {
    if words == [] then [] else words[0] + gaps[0] + Spread(words[1..], gaps[1..])
  }

  /** Every gap is whitespace, and every gap but the last separates two words, so it is
      not empty. */
  predicate Gaps(gaps: seq<string>) {
    forall i :: 0 <= i < |gaps| ==> AllWhitespace(gaps[i]) && (i < |gaps| - 1 ==> gaps[i] != [])
  }

  lemma {:induction false} GapsUncons(gaps: seq<string>)
    requires |gaps| > 0 && Gaps(gaps)
    ensures AllWhitespace(gaps[0]) && (|gaps| > 1 ==> gaps[0] != []) && Gaps(gaps[1..])
  {
    assert forall i :: 0 <= i < |gaps| - 1 ==> gaps[1..][i] == gaps[i + 1];
  }

  /** `split_whitespace` gives back the words of any layout: whitespace in front, then
      the words with non-empty whitespace between neighbours, then whitespace. */
  lemma {:induction false} SplitSpread(lead: string, words: seq<string>, gaps: seq<string>)
    requires AllWhitespace(lead) && AllWords(words)
    requires |gaps| == |words| && Gaps(gaps)
    ensures SplitWhitespace(lead + Spread(words, gaps)) == words
    decreases |words|
  {
    SplitAfterWhitespace(lead, Spread(words, gaps));
    if words == [] {
      NoWords([]);
    } else {
      var rest := Spread(words[1..], gaps[1..]);
      var after := gaps[0] + rest;
      AllWordsUncons(words);
      GapsUncons(gaps);
      assert after == [] || IsWhitespace(after[0]) by {
        if |words| == 1 {
          assert rest == [];
          if gaps[0] != [] {
            assert after[0] == gaps[0][0];
          }
        } else {
          assert gaps[0] != [];
          assert after[0] == gaps[0][0];
        }
      }
      AppendAssoc(words[0], gaps[0], rest);
      assert SplitWhitespace(words[0] + after) == [words[0]] + SplitWhitespace(after) by {
        SplitWordThen(words[0], after);
      }
      assert SplitWhitespace(after) == words[1..] by {
        SplitSpread(gaps[0], words[1..], gaps[1..]);
      }
      HeadTail(words);
    }
  }

  /** Grouping of concatenations does not matter. */
  lemma {:induction false} AppendAssoc(a: string, b: string, c: string)
    ensures a + b + c == a + (b + c)
  {
  }

  lemma {:induction false} HeadTail(words: seq<string>)
    requires |words| > 0
    ensures [words[0]] + words[1..] == words
  {
  }

  /** Joining two or more parts puts the first part, then the separator, then the rest. */
  lemma {:induction false} JoinCons(parts: seq<string>, sep: string)
    requires |parts| > 1
    ensures JoinWith(parts, sep) == parts[0] + (sep + JoinWith(parts[1..], sep))
  {
  }

  lemma {:induction false} SplitOneWord(w: string)
    requires IsWord(w)
    ensures SplitWhitespace(JoinWith([w], " ")) == [w]
  {
    assert JoinWith([w], " ") == w + [];
    SplitWordThen(w, []);
    assert SplitWhitespace([]) == [];
  }

  /** Splitting words joined by single spaces gives the words back. */
  lemma {:induction false} SplitJoinedWords(words: seq<string>)
    requires AllWords(words)
    ensures SplitWhitespace(JoinWith(words, " ")) == words
  {
    if |words| == 1 {
      SplitOneWord(words[0]);
      HeadTail(words);
    } else if |words| > 1 {
      var tail := JoinWith(words[1..], " ");
      AllWordsUncons(words);
      JoinCons(words, " ");
      SplitWordThen(words[0], " " + tail);
      SplitWhitespaceAfterSpace(tail);
      SplitJoinedWords(words[1..]);
      HeadTail(words);
    }
  }

  /** What `BufRead::read_line` puts in its buffer: everything up to and including the
      first newline, or all of `s` when it has none. */
  function FirstLine(s: string): (r: string)
    ensures StartsWith(s, r)
    ensures |r| == 0 <==> |s| == 0
    ensures NoNewline(r) ==> r == s
    ensures forall i :: 0 <= i < |r| - 1 ==> r[i] != '\n'
  {
    if s == [] then []
    else if s[0] == '\n' then "\n"
    else [s[0]] + FirstLine(s[1..])
  }

  /** A newline-free prefix is read through: the first line continues past it. */
  lemma {:induction false} FirstLineAfter(x: string, y: string)
    requires NoNewline(x)
    ensures FirstLine(x + y) == x + FirstLine(y)
    decreases |x|
  {
    if x == [] {
      assert x + y == y;
    } else {
      assert (x + y)[1..] == x[1..] + y;
      FirstLineAfter(x[1..], y);
    }
  }

  predicate OccursAt(s: string, pattern: string, i: nat) {
    i + |pattern| <= |s| && s[i..i + |pattern|] == pattern
  }

  /** The leftmost occurrence of `pattern` in `s` at or after index `k`. */
  function FindFrom(s: string, pattern: string, k: nat): (r: Option<nat>)
    requires k <= |s|
    ensures r.Some? ==> k <= r.value && OccursAt(s, pattern, r.value)
    ensures r.Some? ==> forall j :: k <= j < r.value ==> !OccursAt(s, pattern, j)
    ensures r.None? ==> forall j :: k <= j <= |s| ==> !OccursAt(s, pattern, j)
    decreases |s| - k
  {
    if k + |pattern| > |s| then None
    else if s[k..k + |pattern|] == pattern then Some(k)
    else FindFrom(s, pattern, k + 1)
  }

  /** `str::replacen(pattern, replacement, 1)`: the leftmost occurrence of `pattern`
      replaced, the rest of `s` untouched. */
  function ReplaceFirst(s: string, pattern: string, replacement: string): (r: string)
    ensures StartsWith(s, pattern) ==> r == replacement + s[|pattern|..]
    ensures (forall j :: 0 <= j <= |s| ==> !OccursAt(s, pattern, j)) ==> r == s
  {
    match FindFrom(s, pattern, 0)
    case None => s
    case Some(i) => s[..i] + replacement + s[i + |pattern|..]
  }
}
