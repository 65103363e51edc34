/**
 * The two string primitives of Python 2 that the converter relies on:
 * `s.find(p) > -1` (substring test) and `s.split()` with no separator
 * (split on runs of ASCII whitespace, dropping empty pieces).
 */
module Text {

  /** Python 2 `str.isspace` on one character: space, tab, line feed,
      carriage return, vertical tab and form feed. */
  predicate IsSpace(c: char)
  {
    c == ' ' || c == '\t' || c == '\n' || c == '\r' || c == '\U{0B}' || c == '\U{0C}'
  }

  predicate NoSpace(s: string)
  {
    forall i :: 0 <= i < |s| ==> !IsSpace(s[i])
  }

  /** `s.find(p) > -1`: `p` occurs somewhere in `s` (the empty pattern occurs everywhere). */
  predicate Contains(s: string, p: string)
  {
    p <= s || (s != [] && Contains(s[1..], p))
  }

  /** `s.split()`: the maximal runs of non-whitespace characters of `s`, in order. */
  function Split(s: string): (r: seq<string>)
    ensures forall k :: 0 <= k < |r| ==> r[k] != [] && NoSpace(r[k])
  {
    SplitFrom(s, [])
  }

  /** Splitting the rest `s` of a line while the token `cur` is being read. */
  function SplitFrom(s: string, cur: string): (r: seq<string>)
    requires NoSpace(cur)
    ensures forall k :: 0 <= k < |r| ==> r[k] != [] && NoSpace(r[k])
    decreases |s|
  {
    if s == [] then
      Flush(cur)
    else if IsSpace(s[0]) then
      Flush(cur) + SplitFrom(s[1..], [])
    else
      SplitFrom(s[1..], cur + [s[0]])
  }

  function Flush(cur: string): (r: seq<string>)
    ensures |r| <= 1 && (r == [] <==> cur == [])
  {
    if cur == [] then [] else [cur]
  }

  /** A whitespace character separates the tokens of its two sides. */
  lemma {:induction false} SplitAtSpace(a: string, c: char, b: string)
    requires IsSpace(c)
    ensures Split(a + [c] + b) == Split(a) + Split(b)
  {
    SplitFromAtSpace(a, c, b, []);
  }

  lemma {:induction false} SplitFromAtSpace(a: string, c: char, b: string, cur: string)
    requires IsSpace(c) && NoSpace(cur)
    ensures SplitFrom(a + [c] + b, cur) == SplitFrom(a, cur) + Split(b)
    decreases |a|
  {
    var s := a + [c] + b;
    if a == [] {
      assert s[0] == c && s[1..] == b;
    } else if IsSpace(a[0]) {
      assert s[0] == a[0] && s[1..] == a[1..] + [c] + b;
      SplitFromAtSpace(a[1..], c, b, []);
    } else {
      assert s[0] == a[0] && s[1..] == a[1..] + [c] + b;
      SplitFromAtSpace(a[1..], c, b, cur + [a[0]]);
    }
  }

  /** A non-empty word without whitespace is a single token. */
  lemma SplitWord(w: string)
    requires w != [] && NoSpace(w)
    ensures Split(w) == [w]
  {
    SplitFromWord(w, []);
    assert [] + w == w;
  }

  lemma {:induction false} SplitFromWord(w: string, cur: string)
    requires NoSpace(w) && NoSpace(cur)
    ensures SplitFrom(w, cur) == Flush(cur + w)
    decreases |w|
  {
    if w != [] {
      assert !IsSpace(w[0]);
      assert SplitFrom(w, cur) == SplitFrom(w[1..], cur + [w[0]]);
      assert cur + [w[0]] + w[1..] == cur + w;
      SplitFromWord(w[1..], cur + [w[0]]);
    } else {
      assert cur + w == cur;
    }
  }

  /** Words joined by single spaces split back into exactly those words. */
  lemma {:induction false} SplitJoined(ws: seq<string>)
    requires forall k :: 0 <= k < |ws| ==> ws[k] != [] && NoSpace(ws[k])
    ensures Split(Joined(ws)) == ws
  {
    if |ws| == 1 {
      SplitWord(ws[0]);
    } else if |ws| > 1 {
      SplitAtSpace(ws[0], ' ', Joined(ws[1..]));
      SplitWord(ws[0]);
      SplitJoined(ws[1..]);
    }
  }

  /** The words `ws` separated by single spaces. */
  function Joined(ws: seq<string>): string
  {
    if ws == [] then []
    else if |ws| == 1 then ws[0]
    else ws[0] + [' '] + Joined(ws[1..])
  }
}
