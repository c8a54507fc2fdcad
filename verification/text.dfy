/**
  Python's no-argument str.strip() and str.split(), and lstrip/rstrip with a
  character argument, on strings as sequences of characters.
 */
module Text {

  /** The characters for which Python's str.isspace() holds; strip() and
      split() without arguments treat exactly these as whitespace. */
  predicate IsSpace(c: char) {
    || c == ' '
    || '\t' <= c <= '\r'
    || '\U{1C}' <= c <= '\U{1F}'
    || c == '\U{85}' || c == '\U{A0}' || c == '\U{1680}'
    || '\U{2000}' <= c <= '\U{200A}'
    || c == '\U{2028}' || c == '\U{2029}' || c == '\U{202F}'
    || c == '\U{205F}' || c == '\U{3000}'
  }

  predicate NotSpace(c: char) {
    !IsSpace(c)
  }

  /** A token that split() can produce: non-empty and free of whitespace. */
  predicate IsWord(w: string) {
    w != [] && forall i :: 0 <= i < |w| ==> !IsSpace(w[i])
  }

  /** s.lstrip(chars): removes the whole leading run of characters satisfying `drop`. */
  function StripLeft(s: string, drop: char -> bool): (r: string)
    ensures |r| <= |s|
    ensures r == [] || !drop(r[0])
  {
    if s != [] && drop(s[0]) then StripLeft(s[1..], drop) else s
  }

  /** What lstrip removed is a prefix of dropped characters; what remains is
      the rest of the text. */
  lemma {:induction false} StripLeftSuffix(s: string, drop: char -> bool)
    ensures var r := StripLeft(s, drop);
      && r == s[|s| - |r|..]
      && forall i :: 0 <= i < |s| - |r| ==> drop(s[i])
  {
    if s != [] && drop(s[0]) {
      StripLeftSuffix(s[1..], drop);
    }
  }

  /** s.rstrip(chars): removes the whole trailing run of characters satisfying `drop`. */
  function StripRight(s: string, drop: char -> bool): (r: string)
    ensures |r| <= |s| && r == s[..|r|]
    ensures forall i :: |r| <= i < |s| ==> drop(s[i])
    ensures r == [] || !drop(r[|r| - 1])
  {
    if s != [] && drop(s[|s| - 1]) then StripRight(s[..|s| - 1], drop) else s
  }

  /** s.strip(): surrounding whitespace removed on both sides. */
  function Strip(s: string): (r: string)
    ensures r == [] || (!IsSpace(r[0]) && !IsSpace(r[|r| - 1]))
  {
    StripRight(StripLeft(s, IsSpace), IsSpace)
  }

  /** s.split(): the maximal runs of non-whitespace characters, in order. */
  function Split(s: string): (tokens: seq<string>)
    decreases |s|
  {
    var t := StripLeft(s, IsSpace);
    if t == [] then []
    else
      var rest := StripLeft(t, NotSpace);
      var word := FirstWord(t);
      [word] + Split(rest)
  }

  /** The leading run of non-whitespace characters of `t`, which split()
      returns as one token; what follows it is StripLeft(t, NotSpace). */
  function FirstWord(t: string): string {
    t[..|t| - |StripLeft(t, NotSpace)|]
  }

  /** A word-led text is its first word followed by what lstrip leaves. */
  lemma FirstWordSplits(t: string)
    requires t != [] && !IsSpace(t[0])
    ensures IsWord(FirstWord(t)) && t == FirstWord(t) + StripLeft(t, NotSpace)
  {
    var rest := StripLeft(t, NotSpace);
    StripLeftSuffix(t, NotSpace);
    assert NotSpace(t[0]);
    assert t == FirstWord(t) + rest;
  }

  /** Every token split() returns is a word. */
  lemma {:induction false} SplitWords(s: string)
    ensures forall k :: 0 <= k < |Split(s)| ==> IsWord(Split(s)[k])
    decreases |s|
  {
    var t := StripLeft(s, IsSpace);
    if t != [] {
      var rest := StripLeft(t, NotSpace);
      var word := FirstWord(t);
      FirstWordSplits(t);
      var more := Split(rest);
      assert Split(s) == [word] + more;
      SplitWords(rest);
      forall k | 0 <= k < |Split(s)|
        ensures IsWord(Split(s)[k])
      {
        if k > 0 {
          assert Split(s)[k] == more[k - 1];
        }
      }
    }
  }

  /** " ".join(words). */
  function Join(words: seq<string>): string {
    if |words| == 0 then ""
    else if |words| == 1 then words[0]
    else words[0] + " " + Join(words[1..])
  }

  /** A string made only of dropped characters strips to nothing. */
  lemma StripLeftAll(s: string, drop: char -> bool)
    requires forall i :: 0 <= i < |s| ==> drop(s[i])
    ensures StripLeft(s, drop) == []
  {
    StripLeftSuffix(s, drop);
  }

  /** A prefix of dropped characters is invisible to lstrip. */
  lemma {:induction false} StripLeftSkip(a: string, b: string, drop: char -> bool)
    requires forall i :: 0 <= i < |a| ==> drop(a[i])
    ensures StripLeft(a + b, drop) == StripLeft(b, drop)
  {
    if a != [] {
      assert (a + b)[1..] == a[1..] + b;
      StripLeftSkip(a[1..], b, drop);
    } else {
      assert a + b == b;
    }
  }

  /** A suffix of dropped characters is invisible to rstrip. */
  lemma {:induction false} StripRightSkip(a: string, b: string, drop: char -> bool)
    requires forall i :: 0 <= i < |b| ==> drop(b[i])
    ensures StripRight(a + b, drop) == StripRight(a, drop)
  {
    if b != [] {
      assert (a + b)[..|a + b| - 1] == a + b[..|b| - 1];
      StripRightSkip(a, b[..|b| - 1], drop);
    } else {
      assert a + b == a;
    }
  }

  /** Text without surrounding whitespace is left alone by strip(). */
  lemma StripClean(s: string)
    requires s != [] && !IsSpace(s[0]) && !IsSpace(s[|s| - 1])
    ensures Strip(s) == s
  {
  }

  /** Whitespace-only text (a blank line) has no tokens and strips to "". */
  lemma BlankHasNoTokens(s: string)
    requires forall i :: 0 <= i < |s| ==> IsSpace(s[i])
    ensures Strip(s) == [] && Split(s) == []
  {
    StripLeftAll(s, IsSpace);
  }

  lemma JoinEnds(words: seq<string>)
    requires |words| > 0 && forall k :: 0 <= k < |words| ==> IsWord(words[k])
    ensures var j := Join(words); var w := words[|words| - 1];
      IsWord(words[0]) && IsWord(w) &&
      j != [] && j[0] == words[0][0] && j[|j| - 1] == w[|w| - 1]
  {
    if |words| > 1 {
      JoinEnds(words[1..]);
    }
  }

  /** Leading whitespace does not change what split() returns. */
  lemma SplitSkipsSpace(a: string, b: string)
    requires forall i :: 0 <= i < |a| ==> IsSpace(a[i])
    ensures Split(a + b) == Split(b)
  {
    StripLeftSkip(a, b, IsSpace);
  }

  /** A word followed by a space-led remainder splits into that word first. */
  lemma SplitWordThenRest(w: string, rest: string)
    requires IsWord(w) && (rest == [] || IsSpace(rest[0]))
    ensures Split(w + rest) == [w] + Split(rest)
  {
    var s := w + rest;
    StripLeftSkip(w, rest, NotSpace);
    assert StripLeft(s, IsSpace) == s;
    assert StripLeft(s, NotSpace) == rest;
    var fw := FirstWord(s);
    assert fw == w;
  }

  /** A single word splits into itself. */
  lemma SplitSingle(w: string)
    requires IsWord(w)
    ensures Split(w) == [w]
  {
    SplitWordThenRest(w, "");
    assert w + "" == w;
    assert Split("") == [];
  }

  /** A word, one space, then anything: the word is the first token. */
  lemma SplitWordSpace(w: string, tail: string)
    requires IsWord(w)
    ensures Split(w + (" " + tail)) == [w] + Split(tail)
  {
    SplitWordThenRest(w, " " + tail);
    SplitSkipsSpace(" ", tail);
  }

  lemma JoinCons(words: seq<string>)
    requires |words| > 1
    ensures Join(words) == words[0] + (" " + Join(words[1..]))
  {
  }

  /** One more word in front of a joined, already round-tripping tail. */
  lemma SplitJoinCons(words: seq<string>)
    requires |words| > 1 && IsWord(words[0]) && IsWord(words[1])
    requires Split(Join(words[1..])) == words[1..]
    ensures Split(Join(words)) == words
  {
    JoinCons(words);
    SplitWordSpace(words[0], Join(words[1..]));
    assert words == [words[0]] + words[1..];
  }

  /** Splitting single-space-joined words gives the words back. */
  lemma {:induction false} SplitJoin(words: seq<string>)
    requires forall k :: 0 <= k < |words| ==> IsWord(words[k])
    ensures Split(Join(words)) == words
  {
    if |words| == 1 {
      SplitSingle(words[0]);
    } else if |words| > 1 {
      assert IsWord(words[0]) && IsWord(words[1]);
      SplitJoin(words[1..]);
      SplitJoinCons(words);
    }
  }
}
