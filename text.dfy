/**
 * clean_text_field: the sanitising of every free-text field before it is
 * written to a pipe-delimited file.
 */
module Text {

  /** Python's str.isspace(): the characters on which str.split() breaks. */
  predicate IsSpace(c: char) {
    var n := c as int;
    || (0x09 <= n <= 0x0D) || (0x1C <= n <= 0x20)
    || n == 0x85 || n == 0xA0 || n == 0x1680
    || (0x2000 <= n <= 0x200A)
    || n == 0x2028 || n == 0x2029 || n == 0x202F || n == 0x205F || n == 0x3000
  }

  /** Characters that would break the delimited format. */
  predicate IsForbidden(c: char) {
    c == '|' || c == '\n' || c == '\r' || c == '"'
  }

  /** The four replace calls: '|', newline and carriage return become a space, '"' becomes '\''. */
  function SanitizeChar(c: char): char {
    if c == '|' || c == '\n' || c == '\r' then ' '
    else if c == '"' then '\''
    else c
  }

  function Sanitize(s: string): (r: string)
    ensures |r| == |s|
    ensures forall i :: 0 <= i < |s| ==> r[i] == SanitizeChar(s[i])
    ensures forall i :: 0 <= i < |r| ==> r[i] != '|' && r[i] != '"'
  {
    seq(|s|, i requires 0 <= i < |s| => SanitizeChar(s[i]))
  }

  /** s with its leading whitespace removed (str.lstrip()). */
  function SkipSpaces(s: string): (r: string)
    ensures |r| <= |s| && r == s[|s| - |r|..]
    ensures r == [] || !IsSpace(r[0])
    ensures forall i :: 0 <= i < |s| - |r| ==> IsSpace(s[i])
  {
    if s == [] || !IsSpace(s[0]) then s else SkipSpaces(s[1..])
  }

  /** Length of the longest prefix of s that holds no whitespace. */
  function WordLength(s: string): (n: nat)
    ensures n <= |s|
    ensures forall i :: 0 <= i < n ==> !IsSpace(s[i])
    ensures n < |s| ==> IsSpace(s[n])
  {
    if s == [] || IsSpace(s[0]) then 0 else 1 + WordLength(s[1..])
  }

  /** A word as str.split() produces it: non-empty and free of whitespace. */
  predicate IsWord(w: string) {
    |w| > 0 && forall j :: 0 <= j < |w| ==> !IsSpace(w[j])
  }

  ghost predicate WellFormedWords(ws: seq<string>) {
    forall i :: 0 <= i < |ws| ==> IsWord(ws[i])
  }

  /** Every character of w occurs in s. */
  ghost predicate CharsIn(w: string, s: string) {
    forall j :: 0 <= j < |w| ==> w[j] in s
  }

  /** str.split() with no argument: the maximal runs of non-whitespace characters, in order. */
  function Words(s: string): seq<string>
    decreases |s|
  {
    var t := SkipSpaces(s);
    if t == [] then []
    else
      var n := WordLength(t);
      [t[..n]] + Words(t[n..])
  }

  /** One step of the split: the leading whitespace is skipped and one word taken off. */
  lemma WordsStep(s: string) returns (t: string, n: nat)
    ensures t == SkipSpaces(s)
    ensures t == [] ==> Words(s) == []
    ensures t != [] ==> n == WordLength(t) && IsWord(t[..n]) && |t[n..]| < |s|
    ensures t != [] ==> Words(s) == [t[..n]] + Words(t[n..])
  {
    t := SkipSpaces(s);
    n := 0;
    if t != [] {
      n := WordLength(t);
    }
  }

  /** The words of s are non-empty and free of whitespace. */
  lemma {:induction false} WordsWellFormed(s: string)
    ensures WellFormedWords(Words(s))
    decreases |s|
  {
    var t, n := WordsStep(s);
    if t != [] {
      WordsWellFormed(t[n..]);
      ConsWords(t[..n], Words(t[n..]));
    }
  }

  lemma ConsWords(w: string, rest: seq<string>)
    requires IsWord(w) && WellFormedWords(rest)
    ensures WellFormedWords([w] + rest)
  {
    var ws := [w] + rest;
    forall i | 0 <= i < |ws| ensures IsWord(ws[i]) {
      if i > 0 { assert ws[i] == rest[i - 1]; }
    }
  }

  /** The words of s are made of characters of s. */
  lemma {:induction false} WordsChars(s: string)
    ensures forall i :: 0 <= i < |Words(s)| ==> CharsIn(Words(s)[i], s)
    decreases |s|
  {
    var t, n := WordsStep(s);
    if t != [] {
      var w, rest := t[..n], Words(t[n..]);
      WordsChars(t[n..]);
      SuffixChars(s, t, n, rest);
      PrefixChars(s, t, n);
      var ws := [w] + rest;
      forall i | 0 <= i < |ws| ensures CharsIn(ws[i], s) {
        if i > 0 { assert ws[i] == rest[i - 1]; }
      }
    }
  }

  lemma PrefixChars(s: string, t: string, n: nat)
    requires |t| <= |s| && t == s[|s| - |t|..] && n <= |t|
    ensures CharsIn(t[..n], s)
  {
    forall j | 0 <= j < n ensures t[..n][j] in s {
      assert s[|s| - |t| + j] == t[j];
    }
  }

  /** Characters of a suffix of a suffix of s are characters of s. */
  lemma SuffixChars(s: string, t: string, n: nat, ws: seq<string>)
    requires |t| <= |s| && t == s[|s| - |t|..] && n <= |t|
    requires forall i :: 0 <= i < |ws| ==> CharsIn(ws[i], t[n..])
    ensures forall i :: 0 <= i < |ws| ==> CharsIn(ws[i], s)
  {
    forall i, j | 0 <= i < |ws| && 0 <= j < |ws[i]| ensures ws[i][j] in s {
      var c := ws[i][j];
      assert c in t[n..];
      var m :| 0 <= m < |t[n..]| && t[n..][m] == c;
      assert s[|s| - |t| + n + m] == c;
    }
  }

  /** ' '.join(ws). */
  function Join(ws: seq<string>): string {
    if |ws| == 0 then ""
    else if |ws| == 1 then ws[0]
    else ws[0] + " " + Join(ws[1..])
  }

  /** s with its trailing whitespace removed (str.rstrip()). */
  function TrimRight(s: string): string {
    if s != [] && IsSpace(s[|s| - 1]) then TrimRight(s[..|s| - 1]) else s
  }

  /** str.strip(). */
  function Strip(s: string): string {
    TrimRight(SkipSpaces(s))
  }

  /**
   * The shape of a cleaned field: every whitespace character in it is a plain
   * space with a non-whitespace character on either side (so there is no
   * leading or trailing whitespace and no two spaces in a row).
   */
  ghost predicate SingleSpaced(r: string) {
    forall i :: 0 <= i < |r| && IsSpace(r[i]) ==>
      r[i] == ' ' && 0 < i < |r| - 1 && !IsSpace(r[i - 1]) && !IsSpace(r[i + 1])
  }

  /** clean_text_field. */
  function CleanTextField(text: string): (r: string)
    ensures text == [] ==> r == []
    ensures forall i :: 0 <= i < |r| ==> !IsForbidden(r[i])
    ensures r == [] || (!IsSpace(r[0]) && !IsSpace(r[|r| - 1]))
    ensures forall i :: 0 <= i < |r| - 1 ==> !(r[i] == ' ' && r[i + 1] == ' ')
    ensures SingleSpaced(r)
    ensures forall i :: 0 <= i < |r| ==> r[i] == ' ' || r[i] in Sanitize(text)
  {
    if text == [] then ""
    else
      var ws := Words(Sanitize(text));
      WordsWellFormed(Sanitize(text));
      WordsChars(Sanitize(text));
      JoinShape(ws, Sanitize(text));
      StripSingleSpaced(Join(ws));
      Strip(Join(ws))
  }

  /** Joining well-formed words with single spaces gives a single-spaced string of their characters. */
  lemma {:induction false} JoinShape(ws: seq<string>, s: string)
    requires WellFormedWords(ws)
    requires forall i :: 0 <= i < |ws| ==> CharsIn(ws[i], s)
    ensures SingleSpaced(Join(ws))
    ensures forall i :: 0 <= i < |Join(ws)| ==> Join(ws)[i] == ' ' || Join(ws)[i] in s
  {
    if |ws| == 1 {
      assert Join(ws) == ws[0];
    } else if |ws| > 1 {
      var w, rest := ws[0], Join(ws[1..]);
      TailWords(ws);
      forall i | 0 <= i < |ws[1..]| ensures CharsIn(ws[1..][i], s) {
        assert ws[1..][i] == ws[i + 1];
      }
      JoinShape(ws[1..], s);
      JoinNonEmpty(ws[1..]);
      var r := w + " " + rest;
      assert Join(ws) == r;
      forall i | 0 <= i < |r| && IsSpace(r[i])
        ensures r[i] == ' ' && 0 < i < |r| - 1 && !IsSpace(r[i - 1]) && !IsSpace(r[i + 1])
      {
        if i > |w| {
          assert r[i] == rest[i - |w| - 1];
          if i - 1 > |w| { assert r[i - 1] == rest[i - 1 - |w| - 1]; }
          if i + 1 < |r| { assert r[i + 1] == rest[i + 1 - |w| - 1]; }
        } else if i == |w| {
          assert r[i - 1] == w[|w| - 1];
          assert r[i + 1] == rest[0];
        }
      }
      forall i | 0 <= i < |r| ensures r[i] == ' ' || r[i] in s {
        if i < |w| {
          assert r[i] == ws[0][i];
        } else if i > |w| {
          assert r[i] == rest[i - |w| - 1];
        }
      }
    }
  }

  lemma TailWords(ws: seq<string>)
    requires WellFormedWords(ws) && |ws| > 0
    ensures WellFormedWords(ws[1..])
  {
    forall i | 0 <= i < |ws[1..]| ensures IsWord(ws[1..][i]) { assert ws[1..][i] == ws[i + 1]; }
  }

  /** Joining at least one well-formed word starts with a non-whitespace character. */
  lemma {:induction false} JoinNonEmpty(ws: seq<string>)
    requires WellFormedWords(ws) && |ws| > 0
    ensures |Join(ws)| > 0 && !IsSpace(Join(ws)[0]) && !IsSpace(Join(ws)[|Join(ws)| - 1])
  {
    if |ws| > 1 {
      TailWords(ws);
      JoinNonEmpty(ws[1..]);
      var r := ws[0] + " " + Join(ws[1..]);
      assert Join(ws) == r;
      assert r[0] == ws[0][0];
      assert r[|r| - 1] == Join(ws[1..])[|Join(ws[1..])| - 1];
    }
  }

  /** strip() leaves a single-spaced string as it is. */
  lemma StripSingleSpaced(s: string)
    requires SingleSpaced(s)
    ensures Strip(s) == s
  {
  }

  /** Splitting words joined by single spaces gives back the words: Join and Words are inverse. */
  lemma {:induction false} WordsOfJoin(ws: seq<string>)
    requires WellFormedWords(ws)
    ensures Words(Join(ws)) == ws
  {
    if |ws| == 0 {
      var t, n := WordsStep([]);
    } else if |ws| == 1 {
      assert Join(ws) == ws[0];
      WordsOfWord(ws[0]);
    } else {
      TailWords(ws);
      WordsOfJoin(ws[1..]);
      WordsOfJoinCons(ws);
    }
  }

  lemma WordsOfJoinCons(ws: seq<string>)
    requires WellFormedWords(ws) && |ws| > 1 && WellFormedWords(ws[1..]) && Words(Join(ws[1..])) == ws[1..]
    ensures Words(Join(ws)) == ws
  {
    var w, tail := ws[0], ws[1..];
    var j := Join(tail);
    assert Join(ws) == w + " " + j;
    assert Words(w + " " + j) == [w] + Words(j) by {
      assert IsWord(w);
      JoinNonEmpty(tail);
      WordsOfCons(w, j);
    }
    assert ws == [w] + tail;
  }

  lemma WordsOfWord(w: string)
    requires IsWord(w)
    ensures Words(w) == [w]
  {
    WordLengthOfWord(w, "");
    assert w + "" == w;
    var t, n := WordsStep(w);
    assert w[|w|..] == [];
    var t', n' := WordsStep([]);
  }

  lemma WordsOfCons(w: string, j: string)
    requires IsWord(w) && j != [] && !IsSpace(j[0])
    ensures Words(w + " " + j) == [w] + Words(j)
  {
    var r := w + " " + j;
    WordLengthOfWord(w, " " + j);
    assert r == w + (" " + j);
    var t, n := WordsStep(r);
    assert r[..|w|] == w;
    assert r[|w|..] == " " + j;
    var t', n' := WordsStep(" " + j);
    assert (" " + j)[1..] == j;
    var t'', n'' := WordsStep(j);
  }

  /** A whitespace-free prefix followed by whitespace (or nothing) is exactly one word long. */
  lemma {:induction false} WordLengthOfWord(w: string, rest: string)
    requires forall j :: 0 <= j < |w| ==> !IsSpace(w[j])
    requires rest == [] || IsSpace(rest[0])
    ensures WordLength(w + rest) == |w|
    decreases |w|
  {
    if w != [] {
      assert (w + rest)[1..] == w[1..] + rest;
      WordLengthOfWord(w[1..], rest);
    } else {
      assert w + rest == rest;
    }
  }

  /** The words of a cleaned field are the words of the sanitised input: cleaning only changes spacing. */
  lemma CleanKeepsWords(text: string)
    ensures Words(CleanTextField(text)) == Words(Sanitize(text))
  {
    if text != [] {
      var ws := Words(Sanitize(text));
      WordsWellFormed(Sanitize(text));
      WordsChars(Sanitize(text));
      JoinShape(ws, Sanitize(text));
      StripSingleSpaced(Join(ws));
      WordsOfJoin(ws);
    } else {
      assert Sanitize(text) == [];
    }
  }

  /** Cleaning a field that is already clean changes nothing. */
  lemma CleanIdempotent(text: string)
    ensures CleanTextField(CleanTextField(text)) == CleanTextField(text)
  {
    var r := CleanTextField(text);
    if r != [] {
      assert Sanitize(r) == r by {
        forall i | 0 <= i < |r| ensures Sanitize(r)[i] == r[i] {
          assert !IsForbidden(r[i]);
        }
      }
      CleanKeepsWords(text);
      var ws := Words(Sanitize(text));
      WordsWellFormed(Sanitize(text));
      WordsChars(Sanitize(text));
      JoinShape(ws, Sanitize(text));
      StripSingleSpaced(Join(ws));
    }
  }
}
