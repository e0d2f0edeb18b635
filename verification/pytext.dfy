/**
 * The Python `str` operations that the udhcp configuration reader relies on:
 * `str.strip()`, `str.split(' ')`, and reading a text file with `readlines()`
 * (which first applies universal-newline translation). Each is a plain
 * recursive definition; what it computes is stated by the lemma that follows
 * it, independently of the recursion.
 */
module PyText {

  /** The characters Python's `str.isspace()` accepts, which `str.strip()` removes. */
  predicate IsSpace(c: char) {
    c == ' ' || c == '\t' || c == '\n' || c == '\r' || c == '\U{0B}' || c == '\U{0C}'
    || ('\U{1C}' <= c <= '\U{1F}') || c == '\U{85}' || c == '\U{A0}' || c == '\U{1680}'
    || ('\U{2000}' <= c <= '\U{200A}') || c == '\U{2028}' || c == '\U{2029}'
    || c == '\U{202F}' || c == '\U{205F}' || c == '\U{3000}'
  }

  predicate AllSpace(s: string) {
    forall i :: 0 <= i < |s| ==> IsSpace(s[i])
  }

  // ---------------------------------------------------------------- strip

  /** `s.lstrip()`. */
  function LStrip(s: string): string {
    if |s| > 0 && IsSpace(s[0]) then LStrip(s[1..]) else s
  }

  /** `s.rstrip()`. */
  function RStrip(s: string): string {
    if |s| > 0 && IsSpace(s[|s| - 1]) then RStrip(s[..|s| - 1]) else s
  }

  /** `s.strip()`. */
  function Strip(s: string): string {
    RStrip(LStrip(s))
  }

  /**
   * `lstrip` keeps a suffix of the text, removes only whitespace, and leaves
   * a result that is empty or starts with a non-whitespace character.
   */
  lemma {:induction false} LStripSpec(s: string)
    ensures |LStrip(s)| <= |s| && LStrip(s) == s[|s| - |LStrip(s)|..]
    ensures forall i :: 0 <= i < |s| - |LStrip(s)| ==> IsSpace(s[i])
    ensures LStrip(s) == [] || !IsSpace(LStrip(s)[0])
    decreases |s|
  {
    if |s| > 0 && IsSpace(s[0]) {
      LStripSpec(s[1..]);
      var r := LStrip(s[1..]);
      assert forall i :: 1 <= i < |s| - |r| ==> s[i] == s[1..][i - 1];
    }
  }

  /**
   * `rstrip` keeps a prefix of the text, removes only whitespace, and leaves
   * a result that is empty or ends with a non-whitespace character.
   */
  lemma {:induction false} RStripSpec(s: string)
    ensures |RStrip(s)| <= |s| && RStrip(s) == s[..|RStrip(s)|]
    ensures forall i :: |RStrip(s)| <= i < |s| ==> IsSpace(s[i])
    ensures RStrip(s) == [] || !IsSpace(RStrip(s)[|RStrip(s)| - 1])
    decreases |s|
  {
    if |s| > 0 && IsSpace(s[|s| - 1]) {
      RStripSpec(s[..|s| - 1]);
    }
  }

  /** `strip` leaves a result that neither starts nor ends with whitespace. */
  lemma StripSpec(s: string)
    ensures var r := Strip(s); r == [] || (!IsSpace(r[0]) && !IsSpace(r[|r| - 1]))
  {
    LStripSpec(s);
    RStripSpec(LStrip(s));
  }

  lemma {:induction false} LStripSkipsSpace(pad: string, s: string)
    requires AllSpace(pad)
    ensures LStrip(pad + s) == LStrip(s)
    decreases |pad|
  {
    if pad != [] {
      assert (pad + s)[0] == pad[0];
      assert (pad + s)[1..] == pad[1..] + s;
      LStripSkipsSpace(pad[1..], s);
    } else {
      assert pad + s == s;
    }
  }

  lemma {:induction false} RStripSkipsSpace(s: string, tail: string)
    requires AllSpace(tail)
    ensures RStrip(s + tail) == RStrip(s)
    decreases |tail|
  {
    if tail != [] {
      var t := tail[..|tail| - 1];
      assert (s + tail)[|s + tail| - 1] == tail[|tail| - 1];
      assert (s + tail)[..|s + tail| - 1] == s + t;
      RStripSkipsSpace(s, t);
    } else {
      assert s + tail == s;
    }
  }

  /** A text of whitespace only strips to nothing from the left. */
  lemma LStripAllSpace(s: string)
    requires AllSpace(s)
    ensures LStrip(s) == []
  {
    LStripSkipsSpace(s, []);
    assert s + [] == s;
  }

  /**
   * Stripping a text that is whitespace, then a core that neither starts nor
   * ends with whitespace, then whitespace, gives back exactly the core.
   */
  lemma StripPadded(pad: string, core: string, tail: string)
    requires AllSpace(pad) && AllSpace(tail)
    requires core == [] || (!IsSpace(core[0]) && !IsSpace(core[|core| - 1]))
    ensures Strip(pad + core + tail) == core
  {
    var rest := core + tail;
    assert pad + core + tail == pad + rest;
    LStripSkipsSpace(pad, rest);
    if core == [] {
      assert rest == tail;
      LStripAllSpace(tail);
    } else {
      assert rest[0] == core[0];
      assert LStrip(rest) == rest;
      RStripSkipsSpace(core, tail);
      assert RStrip(core) == core;
    }
  }

  // ---------------------------------------------------------------- split

  /** `sep.join(parts)`. */
  function Join(parts: seq<string>, sep: char): string
    requires |parts| >= 1
  {
    if |parts| == 1 then parts[0]
    else Join(parts[..|parts| - 1], sep) + [sep] + parts[|parts| - 1]
  }

  /**
   * `s.split(sep)` for a one-character separator: every occurrence of `sep`
   * separates two pieces, and empty pieces are kept, so there is always at
   * least one piece.
   */
  function Split(s: string, sep: char): (parts: seq<string>)
    ensures |parts| >= 1
  {
    if s == [] then [""]
    else
      var p := Split(s[..|s| - 1], sep);
      var c := s[|s| - 1];
      if c == sep then p + [""]
      else p[..|p| - 1] + [p[|p| - 1] + [c]]
  }

  /** Appending the separator to a text opens a new, empty last piece. */
  lemma SplitSnocSeparator(t: string, sep: char)
    ensures Split(t + [sep], sep) == Split(t, sep) + [""]
  {
    assert (t + [sep])[..|t|] == t;
  }

  /** Appending any other character to a text extends its last piece. */
  lemma SplitSnocOther(t: string, c: char, sep: char)
    requires c != sep
    ensures var p := Split(t, sep); Split(t + [c], sep) == p[..|p| - 1] + [p[|p| - 1] + [c]]
  {
    assert (t + [c])[..|t|] == t;
  }

  /** No piece holds the separator. */
  lemma {:induction false} SplitPiecesFree(s: string, sep: char)
    ensures forall i :: 0 <= i < |Split(s, sep)| ==> sep !in Split(s, sep)[i]
    decreases |s|
  {
    if s != [] {
      var init, c := s[..|s| - 1], s[|s| - 1];
      SplitPiecesFree(init, sep);
      assert init + [c] == s;
      if c == sep {
        SplitSnocSeparator(init, sep);
      } else {
        SplitSnocOther(init, c, sep);
      }
    }
  }

  /** Appending a piece appends the separator and the piece to the joined text. */
  lemma JoinAppend(parts: seq<string>, piece: string, sep: char)
    requires |parts| >= 1
    ensures Join(parts + [piece], sep) == Join(parts, sep) + [sep] + piece
  {
    assert (parts + [piece])[..|parts|] == parts;
  }

  /** Extending the last piece extends the joined text. */
  lemma JoinExtendLast(parts: seq<string>, c: char, sep: char)
    requires |parts| >= 1
    ensures Join(parts[..|parts| - 1] + [parts[|parts| - 1] + [c]], sep) == Join(parts, sep) + [c]
  {
    var init, last := parts[..|parts| - 1], parts[|parts| - 1];
    if |parts| > 1 {
      JoinAppend(init, last + [c], sep);
      assert init + [last] == parts;
      JoinAppend(init, last, sep);
    } else {
      assert init + [last + [c]] == [last + [c]];
    }
  }

  /** Joining the pieces with the separator gives the text back. */
  lemma {:induction false} JoinSplit(s: string, sep: char)
    ensures Join(Split(s, sep), sep) == s
    decreases |s|
  {
    if s != [] {
      var init, c := s[..|s| - 1], s[|s| - 1];
      var p := Split(init, sep);
      JoinSplit(init, sep);
      assert init + [c] == s;
      if c == sep {
        SplitSnocSeparator(init, sep);
        JoinAppend(p, "", sep);
      } else {
        SplitSnocOther(init, c, sep);
        JoinExtendLast(p, c, sep);
      }
    }
  }

  /** `s.split(' ')[-1]`. */
  function LastToken(s: string): string {
    var parts := Split(s, ' ');
    parts[|parts| - 1]
  }

  /**
   * The last token is the longest suffix of the text that holds no space: it
   * is either the whole text or preceded by a space.
   */
  lemma LastTokenSpec(s: string)
    ensures |LastToken(s)| <= |s| && LastToken(s) == s[|s| - |LastToken(s)|..]
    ensures ' ' !in LastToken(s)
    ensures |LastToken(s)| < |s| ==> s[|s| - |LastToken(s)| - 1] == ' '
  {
    var parts := Split(s, ' ');
    var n := |parts|;
    JoinSplit(s, ' ');
    SplitPiecesFree(s, ' ');
    if n > 1 {
      assert s == Join(parts[..n - 1], ' ') + [' '] + parts[n - 1];
    }
  }

  /** The last piece after a separator followed by a separator-free tail is that tail. */
  lemma {:induction false} LastPieceAfterSeparator(a: string, b: string, sep: char)
    requires sep !in b
    ensures var p := Split(a + [sep] + b, sep); p[|p| - 1] == b
    decreases |b|
  {
    if b == [] {
      assert a + [sep] + b == a + [sep];
      SplitSnocSeparator(a, sep);
    } else {
      var b', c := b[..|b| - 1], b[|b| - 1];
      assert c in b;
      assert forall x :: x in b' ==> x in b;
      assert a + [sep] + b == (a + [sep] + b') + [c];
      LastPieceAfterSeparator(a, b', sep);
      SplitSnocOther(a + [sep] + b', c, sep);
      assert b' + [c] == b;
    }
  }

  /** A text without the separator is a single piece. */
  lemma {:induction false} SplitWord(s: string, sep: char)
    requires sep !in s
    ensures Split(s, sep) == [s]
    decreases |s|
  {
    if s != [] {
      var init := s[..|s| - 1];
      assert s[|s| - 1] in s;
      assert forall c :: c in init ==> c in s;
      SplitWord(init, sep);
      assert init + [s[|s| - 1]] == s;
    }
  }

  /** The last space-separated token of a text with a space just before a space-free tail is that tail. */
  lemma LastTokenAfterSpace(head: string, tail: string)
    requires ' ' !in tail
    ensures LastToken(head + [' '] + tail) == tail
  {
    LastPieceAfterSeparator(head, tail, ' ');
  }

  /** A text with no space is its own last token. */
  lemma LastTokenOfWord(s: string)
    requires ' ' !in s
    ensures LastToken(s) == s
  {
    SplitWord(s, ' ');
  }

  // ---------------------------------------------------------------- readlines

  /**
   * Universal-newline translation, applied by Python when a file is read in
   * text mode: `"\r\n"` and a lone `"\r"` both become `"\n"`. The result
   * holds no carriage return, and a text without one is left as it is.
   */
  function TranslateNewlines(s: string): (t: string)
    ensures '\r' !in t
    ensures '\r' !in s ==> t == s
    decreases |s|
  {
    if s == [] then []
    else if s[0] == '\r' then
      "\n" + TranslateNewlines(if |s| > 1 && s[1] == '\n' then s[2..] else s[1..])
    else
      assert s == [s[0]] + s[1..];
      [s[0]] + TranslateNewlines(s[1..])
  }

  /** `"".join(lines)`. */
  function Concat(lines: seq<string>): string {
    if lines == [] then [] else lines[0] + Concat(lines[1..])
  }

  /** A line as `readlines()` yields it: not empty, and a newline can only be its last character. */
  predicate IsLine(l: string) {
    l != [] && '\n' !in l[..|l| - 1]
  }

  /** The length of the first line of `s`, its terminating newline included. */
  function LineLength(s: string): (n: nat)
    requires s != []
    ensures 1 <= n <= |s|
  {
    if s[0] == '\n' || |s| == 1 then 1 else 1 + LineLength(s[1..])
  }

  /** The first line is a line, and it ends with a newline unless it runs to the end of the text. */
  lemma {:induction false} LineLengthSpec(s: string)
    requires s != []
    ensures IsLine(s[..LineLength(s)])
    ensures LineLength(s) < |s| ==> s[LineLength(s) - 1] == '\n'
    decreases |s|
  {
    if !(s[0] == '\n' || |s| == 1) {
      LineLengthSpec(s[1..]);
      var n := LineLength(s);
      assert s[..n] == [s[0]] + s[1..][..n - 1];
    }
  }

  /**
   * The lines of an already translated text, each keeping its terminating
   * newline; the last line has none when the text does not end with one.
   */
  function SplitLines(s: string): seq<string>
    decreases |s|
  {
    if s == [] then [] else [s[..LineLength(s)]] + SplitLines(s[LineLength(s)..])
  }

  /**
   * The lines put back together are the text; each is a line, and every line
   * but the last ends with a newline.
   */
  lemma {:induction false} SplitLinesSound(s: string)
    ensures Concat(SplitLines(s)) == s
    ensures forall i :: 0 <= i < |SplitLines(s)| ==> IsLine(SplitLines(s)[i])
    ensures forall i :: 0 <= i < |SplitLines(s)| - 1 ==>
              SplitLines(s)[i] != [] && SplitLines(s)[i][|SplitLines(s)[i]| - 1] == '\n'
    decreases |s|
  {
    if s != [] {
      var n := LineLength(s);
      LineLengthSpec(s);
      var rest := SplitLines(s[n..]);
      SplitLinesSound(s[n..]);
      var lines := [s[..n]] + rest;
      assert SplitLines(s) == lines;
      assert lines[1..] == rest;
      assert s[..n] + s[n..] == s;
    }
  }

  /** `readlines()` on a file whose text is `s`. */
  function ReadLines(s: string): seq<string> {
    SplitLines(TranslateNewlines(s))
  }

  /** The first line of a text whose first newline follows `a` is `a` and that newline. */
  lemma {:induction false} LineLengthAt(a: string, b: string)
    requires '\n' !in a
    ensures LineLength(a + "\n" + b) == |a| + 1
    decreases |a|
  {
    var s := a + "\n" + b;
    if a != [] {
      assert s[0] == a[0];
      assert s[1..] == a[1..] + "\n" + b;
      assert forall c :: c in a[1..] ==> c in a;
      LineLengthAt(a[1..], b);
    }
  }

  /** A first line free of newlines is split off whole, with its terminator. */
  lemma SplitLinesFirst(a: string, b: string)
    requires '\n' !in a
    ensures SplitLines(a + "\n" + b) == [a + "\n"] + SplitLines(b)
  {
    var s := a + "\n" + b;
    LineLengthAt(a, b);
    assert s[..|a| + 1] == a + "\n";
    assert s[|a| + 1..] == b;
  }

  /** A non-empty text without newlines is one line long. */
  lemma {:induction false} LineLengthWhole(a: string)
    requires a != [] && '\n' !in a
    ensures LineLength(a) == |a|
    decreases |a|
  {
    assert a[0] in a;
    if |a| > 1 {
      assert forall c :: c in a[1..] ==> c in a;
      LineLengthWhole(a[1..]);
    }
  }

  /** A non-empty text without newlines is a single line. */
  lemma SplitLinesSingle(a: string)
    requires a != [] && '\n' !in a
    ensures SplitLines(a) == [a]
  {
    LineLengthWhole(a);
    assert a[..|a|] == a;
    assert a[|a|..] == [];
  }
}
