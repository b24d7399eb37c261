/**
 * The Python string operations `preprocess_symptoms` relies on, over
 * `string` = `seq<char>`: `str.lower()`, `str.split(",")` and the
 * no-argument `str.split()`, which splits on runs of whitespace.
 */
module Text {

  /** Number of occurrences of `c` in `s` (Python's `s.count(c)` for one character). */
  function Count(s: string, c: char): (n: nat)
    ensures n <= |s|
    ensures n == 0 <==> c !in s
  {
    if s == [] then 0 else (if s[0] == c then 1 else 0) + Count(s[1..], c)
  }

  lemma {:induction false} CountAppend(a: string, b: string, c: char)
    ensures Count(a + b, c) == Count(a, c) + Count(b, c)
  {
    if a == [] {
      assert a + b == b;
    } else {
      assert (a + b)[1..] == a[1..] + b;
      CountAppend(a[1..], b, c);
    }
  }

  // ---------------------------------------------------------------------------
  // str.lower()

  /**
   * Lower-case mapping of one character. Python maps every Unicode capital;
   * this model covers ASCII and Latin-1 capitals and U+0130 (capital I with dot
   * above), the one character whose lower case is two characters long.
   */
  function LowerChar(c: char): (r: string)
    ensures |r| >= 1
    ensures Count(r, ',') == (if c == ',' then 1 else 0)
  {
    if 'A' <= c <= 'Z' || ('\U{C0}' <= c <= '\U{DE}' && c != '\U{D7}') then [(c as int + 32) as char]
    else if c == '\U{130}' then ['i', '\U{307}']
    else [c]
  }

  /** `s.lower()`: each character replaced by its lower-case form. */
  function Lower(s: string): (r: string)
    ensures |r| >= |s|
  {
    if s == [] then [] else LowerChar(s[0]) + Lower(s[1..])
  }

  /** Lower-casing neither adds nor removes commas. */
  lemma {:induction false} LowerKeepsCommas(s: string)
    ensures Count(Lower(s), ',') == Count(s, ',')
  {
    if s != [] {
      LowerKeepsCommas(s[1..]);
      CountAppend(LowerChar(s[0]), Lower(s[1..]), ',');
    }
  }

  // ---------------------------------------------------------------------------
  // str.split(sep) and sep.join(parts)

  /**
   * `s.split(sep)` for a one-character separator: the segments between
   * separators, empty ones included, so there is always at least one.
   */
  function Split(s: string, sep: char): (parts: seq<string>)
    ensures |parts| == Count(s, sep) + 1
    ensures forall i :: 0 <= i < |parts| ==> sep !in parts[i]
  {
    if s == [] then [[]]
    else
      var rest := Split(s[1..], sep);
      if s[0] == sep then [[]] + rest
      else [[s[0]] + rest[0]] + rest[1..]
  }

  /** `sep.join(parts)`. */
  function Join(parts: seq<string>, sep: char): string
  {
    if parts == [] then []
    else if |parts| == 1 then parts[0]
    else parts[0] + [sep] + Join(parts[1..], sep)
  }

  /** Joining the segments back with the separator restores the string. */
  lemma {:induction false} JoinSplit(s: string, sep: char)
    ensures Join(Split(s, sep), sep) == s
  {
    if s != [] {
      var rest := Split(s[1..], sep);
      JoinSplit(s[1..], sep);
      if s[0] == sep {
        assert Split(s, sep)[1..] == rest;
      } else if |rest| == 1 {
        assert Join(rest, sep) == rest[0];
      } else {
        var parts := Split(s, sep);
        assert parts[1..] == rest[1..];
        assert Join(rest, sep) == rest[0] + [sep] + Join(rest[1..], sep);
        assert s == [s[0]] + s[1..];
      }
    }
  }

  /** Splitting `a + [sep] + b` when `a` holds no separator peels off `a`. */
  lemma {:induction false} SplitPrefix(a: string, sep: char, b: string)
    requires sep !in a
    ensures Split(a + [sep] + b, sep) == [a] + Split(b, sep)
  {
    if a == [] {
      assert [] + [sep] + b == [sep] + b;
      assert ([sep] + b)[1..] == b;
    } else {
      assert (a + [sep] + b)[1..] == a[1..] + [sep] + b;
      SplitPrefix(a[1..], sep, b);
      assert [a[0]] + a[1..] == a;
    }
  }

  /** Splitting separator-free segments joined by the separator gives them back. */
  lemma {:induction false} SplitJoin(parts: seq<string>, sep: char)
    requires |parts| >= 1
    requires forall i :: 0 <= i < |parts| ==> sep !in parts[i]
    ensures Split(Join(parts, sep), sep) == parts
  {
    if |parts| == 1 {
      SplitNoSeparator(parts[0], sep);
    } else {
      SplitJoin(parts[1..], sep);
      SplitPrefix(parts[0], sep, Join(parts[1..], sep));
      assert [parts[0]] + parts[1..] == parts;
    }
  }

  /** A string without the separator is a single segment. */
  lemma {:induction false} SplitNoSeparator(s: string, sep: char)
    requires sep !in s
    ensures Split(s, sep) == [s]
  {
    if s != [] {
      SplitNoSeparator(s[1..], sep);
      assert [s[0]] + s[1..] == s;
    }
  }

  // ---------------------------------------------------------------------------
  // str.split() with no argument

  /**
   * The characters Python's `str.split()` separates on (`str.isspace`): the
   * ASCII controls TAB through CR, the separators U+001C to U+001F, space,
   * NEL, NO-BREAK SPACE, and the Unicode space, line and paragraph separators
   * (U+1680, U+2000 to U+200A, U+2028, U+2029, U+202F, U+205F, U+3000).
   * Among ASCII characters these are the six usual whitespace characters and
   * the four information separators.
   */
  predicate IsSpace(c: char)
    ensures IsSpace(c) ==> c != ','
  {
    || c == ' '
    || ('\t' <= c <= '\r')
    || ('\U{1C}' <= c <= '\U{1F}')
    || c == '\U{85}' || c == '\U{A0}' || c == '\U{1680}'
    || ('\U{2000}' <= c <= '\U{200A}')
    || c == '\U{2028}' || c == '\U{2029}' || c == '\U{202F}' || c == '\U{205F}' || c == '\U{3000}'
  }

  /** Among ASCII characters, the whitespace is the six usual characters and U+001C to U+001F. */
  lemma AsciiWhitespace(c: char)
    requires c <= '\U{7F}'
    ensures IsSpace(c) <==> c in " \t\n\r\U{B}\U{C}\U{1C}\U{1D}\U{1E}\U{1F}"
  {
  }

  predicate AllSpace(s: string) {
    forall i :: 0 <= i < |s| ==> IsSpace(s[i])
  }

  /** A word: a non-empty run of non-whitespace characters. */
  predicate IsWord(w: string) {
    |w| > 0 && forall i :: 0 <= i < |w| ==> !IsSpace(w[i])
  }

  /** Length of the longest whitespace-free prefix of `s`. */
  function RunLength(s: string): (n: nat)
    ensures n <= |s|
    ensures forall i :: 0 <= i < n ==> !IsSpace(s[i])
    ensures n < |s| ==> IsSpace(s[n])
  {
    if s == [] || IsSpace(s[0]) then 0 else 1 + RunLength(s[1..])
  }

  /**
   * `s.split()`: the maximal runs of non-whitespace, in order; whitespace-only
   * input gives []. Maximality is stated by `WordsSplitAtSpace` and `WordIsOneToken`.
   */
  function Words(s: string): (ws: seq<string>)
    ensures forall i :: 0 <= i < |ws| ==> IsWord(ws[i])
    decreases |s|
  {
    if s == [] then []
    else if IsSpace(s[0]) then Words(s[1..])
    else
      var n := RunLength(s);
      [s[..n]] + Words(s[n..])
  }

  /** `len(s.split())`. */
  function WordCount(s: string): (n: nat)
    ensures n == ScanCount(s, false)
  {
    WordCountIsScan(s);
    |Words(s)|
  }

  /** There are no words exactly when the string is empty or all whitespace. */
  lemma {:induction false} NoWordsIffAllSpace(s: string)
    ensures Words(s) == [] <==> AllSpace(s)
    decreases |s|
  {
    if s != [] {
      if IsSpace(s[0]) {
        NoWordsIffAllSpace(s[1..]);
        if AllSpace(s[1..]) {
          forall i | 0 <= i < |s| ensures IsSpace(s[i]) {
            if i > 0 { assert s[i] == s[1..][i - 1]; }
          }
        }
      }
    }
  }

  /**
   * Reference count of words: a left-to-right scan that counts a word each
   * time a non-whitespace character follows whitespace (or the start).
   */
  function ScanCount(s: string, inWord: bool): nat {
    if s == [] then 0
    else if IsSpace(s[0]) then ScanCount(s[1..], false)
    else (if inWord then 0 else 1) + ScanCount(s[1..], true)
  }

  /** Inside a word, the scan counts nothing until the run of non-whitespace ends. */
  lemma {:induction false} ScanSkipsRun(s: string, k: nat)
    requires k <= |s|
    requires forall i :: 0 <= i < k ==> !IsSpace(s[i])
    ensures ScanCount(s, true) == ScanCount(s[k..], true)
  {
    if k > 0 {
      ScanSkipsRun(s[1..], k - 1);
      assert s[1..][k - 1..] == s[k..];
    }
  }

  /** `len(s.split())` equals the number of word starts found by the scan. */
  lemma {:induction false} WordCountIsScan(s: string)
    ensures |Words(s)| == ScanCount(s, false)
    decreases |s|
  {
    if s != [] {
      if IsSpace(s[0]) {
        WordCountIsScan(s[1..]);
      } else {
        var n := RunLength(s);
        WordCountIsScan(s[n..]);
        ScanSkipsRun(s[1..], n - 1);
        assert s[1..][n - 1..] == s[n..];
        if n < |s| {
          assert ScanCount(s[n..], true) == ScanCount(s[n..], false);
        }
      }
    }
  }

  /** Words joined by single spaces split back into the same words. */
  lemma {:induction false} WordsJoin(ws: seq<string>)
    requires forall i :: 0 <= i < |ws| ==> IsWord(ws[i])
    ensures Words(Join(ws, ' ')) == ws
  {
    if |ws| == 1 {
      WordsOfWord(ws[0], []);
      assert ws[0] + [] == ws[0];
    } else if |ws| > 1 {
      var rest := Join(ws[1..], ' ');
      var tail := [' '] + rest;
      assert Join(ws, ' ') == ws[0] + tail;
      WordsJoin(ws[1..]);
      WordsOfWord(ws[0], tail);
      assert tail[1..] == rest;
      assert Words(tail) == Words(rest);
      assert [ws[0]] + ws[1..] == ws;
    }
  }

  /** A word followed by nothing or by whitespace is split off as the first word. */
  lemma WordsOfWord(w: string, tail: string)
    requires IsWord(w)
    requires tail == [] || IsSpace(tail[0])
    ensures Words(w + tail) == [w] + Words(tail)
  {
    var s := w + tail;
    RunLengthOfWord(w, tail);
    assert s[..|w|] == w;
    assert s[|w|..] == tail;
  }

  lemma {:induction false} RunLengthOfWord(w: string, tail: string)
    requires forall i :: 0 <= i < |w| ==> !IsSpace(w[i])
    requires tail == [] || IsSpace(tail[0])
    ensures RunLength(w + tail) == |w|
  {
    if w != [] {
      assert (w + tail)[1..] == w[1..] + tail;
      RunLengthOfWord(w[1..], tail);
    }
  }

  /** The non-whitespace characters of `s`, in order. */
  function NonSpace(s: string): string {
    if s == [] then [] else (if IsSpace(s[0]) then [] else [s[0]]) + NonSpace(s[1..])
  }

  /** The concatenation of a list of strings (`"".join(ws)`). */
  function Concat(ws: seq<string>): string {
    if ws == [] then [] else ws[0] + Concat(ws[1..])
  }

  lemma {:induction false} NonSpaceAppend(a: string, b: string)
    ensures NonSpace(a + b) == NonSpace(a) + NonSpace(b)
  {
    if a == [] {
      assert a + b == b;
    } else {
      assert (a + b)[1..] == a[1..] + b;
      NonSpaceAppend(a[1..], b);
    }
  }

  lemma {:induction false} NonSpaceOfRun(w: string)
    requires forall i :: 0 <= i < |w| ==> !IsSpace(w[i])
    ensures NonSpace(w) == w
  {
    if w != [] {
      NonSpaceOfRun(w[1..]);
      assert [w[0]] + w[1..] == w;
    }
  }

  /** The words hold every non-whitespace character of the string, in order, and nothing else. */
  lemma {:induction false} WordsCoverText(s: string)
    ensures Concat(Words(s)) == NonSpace(s)
    decreases |s|
  {
    if s != [] {
      if IsSpace(s[0]) {
        WordsCoverText(s[1..]);
      } else {
        var n := RunLength(s);
        WordsCoverText(s[n..]);
        var ws := [s[..n]] + Words(s[n..]);
        assert ws[1..] == Words(s[n..]);
        assert s == s[..n] + s[n..];
        NonSpaceAppend(s[..n], s[n..]);
        NonSpaceOfRun(s[..n]);
      }
    }
  }

  /** Appending after a run that already ended, or after whitespace, leaves the run unchanged. */
  lemma {:induction false} RunLengthAppend(a: string, t: string)
    requires RunLength(a) < |a| || t == [] || IsSpace(t[0])
    ensures RunLength(a + t) == RunLength(a)
  {
    if a == [] {
      assert a + t == t;
    } else if !IsSpace(a[0]) {
      assert (a + t)[1..] == a[1..] + t;
      RunLengthAppend(a[1..], t);
    }
  }

  /**
   * A token never spans whitespace: splitting the string at any whitespace
   * character splits its tokens there. With `WordIsOneToken` this determines
   * `Words` on every string, so its tokens are exactly the maximal runs.
   */
  lemma {:induction false} WordsSplitAtSpace(a: string, c: char, b: string)
    requires IsSpace(c)
    ensures Words(a + [c] + b) == Words(a) + Words(b)
    decreases |a|
  {
    var s := a + [c] + b;
    if a == [] {
      assert s == [c] + b;
      assert s[1..] == b;
    } else if IsSpace(a[0]) {
      assert s[1..] == a[1..] + [c] + b;
      WordsSplitAtSpace(a[1..], c, b);
    } else {
      var n := RunLength(a);
      RunLengthAppend(a, [c] + b);
      assert s == a + ([c] + b);
      assert s[..n] == a[..n];
      assert s[n..] == a[n..] + [c] + b;
      WordsSplitAtSpace(a[n..], c, b);
      assert [a[..n]] + (Words(a[n..]) + Words(b)) == ([a[..n]] + Words(a[n..])) + Words(b);
    }
  }

  /** A string that is a single word is a single token. */
  lemma WordIsOneToken(w: string)
    requires IsWord(w)
    ensures Words(w) == [w]
  {
    WordsOfWord(w, []);
    assert w + [] == w;
  }
}
