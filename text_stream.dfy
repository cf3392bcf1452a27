/**
 * The two std::istringstream extractions the core relies on, over the text still unread:
 * `stream >> std::string` (one white-space delimited token) and `stream >> char`
 * (the next character that is not white space).
 */
module TextStreams {
  import opened Wrappers
  import opened Values

  /** The unread text after leading white space is skipped. */
  function TrimLeft(s: string): (t: string)
    ensures |t| <= |s| && t == s[|s| - |t|..]
    ensures t != [] ==> !IsSpace(t[0])
    ensures forall k :: 0 <= k < |s| - |t| ==> IsSpace(s[k])
  {
    if s != [] && IsSpace(s[0]) then TrimLeft(s[1..]) else s
  }

  /** Length of the run of non-space characters at the start of `s`. */
  function TokenLength(s: string): (n: nat)
    ensures n <= |s|
    ensures forall k :: 0 <= k < n ==> !IsSpace(s[k])
    ensures n < |s| ==> IsSpace(s[n])
  {
    if s != [] && !IsSpace(s[0]) then 1 + TokenLength(s[1..]) else 0
  }

  predicate IsWord(w: string) {
    w != [] && forall k :: 0 <= k < |w| ==> !IsSpace(w[k])
  }

  /**
   * `stream >> token`: the token and the text left unread. An empty token is a failed
   * extraction, which happens exactly when only white space was left.
   */
  function ReadToken(s: string): (r: (string, string))
    ensures |r.1| <= |s|
    ensures r.0 == [] <==> r.1 == [] && TrimLeft(s) == []
    ensures r.0 != [] ==> IsWord(r.0) && |r.1| < |s|
    ensures r.1 != [] ==> IsSpace(r.1[0])
  {
    var t := TrimLeft(s);
    var n := TokenLength(t);
    (t[..n], t[n..])
  }

  /** `stream >> c` for a char: the next non-space character, or None when none is left. */
  function ReadChar(s: string): (r: Option<(char, string)>)
    ensures r.None? <==> TrimLeft(s) == []
    ensures r.Some? ==> !IsSpace(r.value.0) && |r.value.1| < |s|
  {
    var t := TrimLeft(s);
    if t == [] then None else Some((t[0], t[1..]))
  }

  /** The tokens `while (stream >> word)` visits, in order. */
  function Words(s: string): (ws: seq<string>)
    ensures forall k :: 0 <= k < |ws| ==> IsWord(ws[k])
    decreases |s|
  {
    var (w, rest) := ReadToken(s);
    if w == [] then [] else [w] + Words(rest)
  }

  /** The words joined, each followed by one space. */
  function Unwords(ws: seq<string>): string {
    if ws == [] then "" else ws[0] + " " + Unwords(ws[1..])
  }

  lemma {:induction false} TokenLengthOfWord(w: string, rest: string)
    requires IsWord(w) && (rest == [] || IsSpace(rest[0]))
    ensures TokenLength(w + rest) == |w|
  {
    if |w| > 1 {
      assert (w + rest)[1..] == w[1..] + rest;
      TokenLengthOfWord(w[1..], rest);
    } else {
      assert (w + rest)[1..] == rest;
    }
  }

  /** Reading a token takes exactly the word in front of a space. */
  lemma ReadTokenOfWord(w: string, rest: string)
    requires IsWord(w)
    ensures ReadToken(w + " " + rest) == (w, " " + rest)
  {
    var s := w + " " + rest;
    assert s == w + (" " + rest);
    assert TrimLeft(s) == s;
    TokenLengthOfWord(w, " " + rest);
  }

  /** The words of a text depend only on what is left once leading white space is skipped. */
  lemma SameTrimSameWords(s: string, t: string)
    requires TrimLeft(s) == TrimLeft(t)
    ensures Words(s) == Words(t)
  {
    assert ReadToken(s) == ReadToken(t);
  }

  /** Leading white space does not change what the stream yields. */
  lemma WordsSkipSpace(rest: string)
    ensures Words(" " + rest) == Words(rest)
  {
    var after := " " + rest;
    assert after[0] == ' ' && after[1..] == rest;
    assert TrimLeft(after) == TrimLeft(rest);
    SameTrimSameWords(after, rest);
  }

  lemma WordsOfWordThenSpace(w: string, rest: string)
    requires IsWord(w)
    ensures Words(w + " " + rest) == [w] + Words(rest)
  {
    ReadTokenOfWord(w, rest);
    WordsSkipSpace(rest);
  }

  /** Splitting words that were joined by spaces gives the words back. */
  lemma {:induction false} WordsUnwords(ws: seq<string>)
    requires forall k :: 0 <= k < |ws| ==> IsWord(ws[k])
    ensures Words(Unwords(ws)) == ws
  {
    if ws != [] {
      var tail := ws[1..];
      assert Unwords(ws) == ws[0] + " " + Unwords(tail);
      WordsOfWordThenSpace(ws[0], Unwords(tail));
      forall k | 0 <= k < |tail|
        ensures IsWord(tail[k])
      {
        assert tail[k] == ws[k + 1];
      }
      WordsUnwords(tail);
      assert ws == [ws[0]] + tail;
    }
  }

  lemma ReadTokenAfterSpace(w: string, rest: string)
    requires IsWord(w) && (rest == [] || IsSpace(rest[0]))
    ensures ReadToken(" " + w + rest) == (w, rest)
  {
    var s := " " + w + rest;
    assert s[1..] == w + rest;
    TokenLengthOfWord(w, rest);
    assert TrimLeft(w + rest) == w + rest;
    assert (w + rest)[..|w|] == w && (w + rest)[|w|..] == rest;
  }

  lemma ReadCharAfterSpace(c: char, rest: string)
    requires !IsSpace(c)
    ensures ReadChar(" " + [c] + rest) == Some((c, rest))
  {
    var s := " " + [c] + rest;
    var t := [c] + rest;
    assert s[0] == ' ' && s[1..] == t;
    assert TrimLeft(s) == TrimLeft(t);
    assert t[0] == c && t[1..] == rest;
    assert TrimLeft(t) == t;
  }
}
