/**
 * The few `java.lang.String` operations the game engine relies on, over
 * `seq<char>`: `trim`, `toLowerCase`, `startsWith`, `equalsIgnoreCase` and
 * `split(" ")`. Case mapping is ASCII only.
 */
module JavaText {

  /** `trim` removes every character whose code is at most that of the space. */
  predicate IsTrimmed(c: char)
  {
    c <= ' '
  }

  function TrimStart(s: string): (r: string)
    ensures |r| <= |s| && r == s[|s| - |r|..]
    ensures forall k :: 0 <= k < |s| - |r| ==> IsTrimmed(s[k])
    ensures r == [] || !IsTrimmed(r[0])
    decreases |s|
  {
    if |s| > 0 && IsTrimmed(s[0]) then TrimStart(s[1..]) else s
  }

  function TrimEnd(s: string): (r: string)
    ensures |r| <= |s| && r == s[..|r|]
    ensures forall k :: |r| <= k < |s| ==> IsTrimmed(s[k])
    ensures r == [] || !IsTrimmed(r[|r| - 1])
    decreases |s|
  {
    if |s| > 0 && IsTrimmed(s[|s| - 1]) then TrimEnd(s[..|s| - 1]) else s
  }

  /** `String.trim()`: a contiguous slice of `s` with no blank at either end. */
  function Trim(s: string): (r: string)
    ensures |r| <= |s|
    ensures r == [] || (!IsTrimmed(r[0]) && !IsTrimmed(r[|r| - 1]))
    ensures (s == [] || (!IsTrimmed(s[0]) && !IsTrimmed(s[|s| - 1]))) ==> r == s
  {
    TrimEnd(TrimStart(s))
  }

  function LowerChar(c: char): (r: char)
    ensures 'A' <= c <= 'Z' ==> r as int == c as int + 32
    ensures !('A' <= c <= 'Z') ==> r == c
  {
    if 'A' <= c <= 'Z' then (c as int + 32) as char else c
  }

  /** `String.toLowerCase()`, restricted to the ASCII letters. */
  function ToLower(s: string): (r: string)
    ensures |r| == |s|
    ensures forall k :: 0 <= k < |s| ==> r[k] == LowerChar(s[k])
  {
    seq(|s|, k requires 0 <= k < |s| => LowerChar(s[k]))
  }

  predicate StartsWith(s: string, prefix: string)
  {
    |prefix| <= |s| && s[..|prefix|] == prefix
  }

  /** `a.equalsIgnoreCase(b)`: equal once both are lower-cased. */
  predicate EqualsIgnoreCase(a: string, b: string)
  {
    ToLower(a) == ToLower(b)
  }

  /** The pieces between the spaces of `s`, empty pieces included. */
  function Pieces(s: string): (r: seq<string>)
    ensures |r| >= 1
    ensures forall i :: 0 <= i < |r| ==> ' ' !in r[i]
    decreases |s|
  {
    if |s| == 0 then [""]
    else
      var rest := Pieces(s[1..]);
      if s[0] == ' ' then [""] + rest
      else [[s[0]] + rest[0]] + rest[1..]
  }

  /** The pieces glued back together with one space between neighbours. */
  function Join(ps: seq<string>): string
    requires |ps| >= 1
    decreases |ps|
  {
    if |ps| == 1 then ps[0] else ps[0] + " " + Join(ps[1..])
  }

  /** Drops the empty strings at the end of `ps`, as `split` does. */
  function DropTrailingEmpty(ps: seq<string>): (r: seq<string>)
    ensures |r| <= |ps| && r == ps[..|r|]
    ensures r == [] || r[|r| - 1] != ""
    ensures forall k :: |r| <= k < |ps| ==> ps[k] == ""
    decreases |ps|
  {
    if |ps| > 0 && ps[|ps| - 1] == "" then DropTrailingEmpty(ps[..|ps| - 1]) else ps
  }

  /**
   * `s.split(" ")`: the pieces between spaces with the trailing empty ones
   * removed; a string without a space is returned whole, even when empty.
   */
  function Split(s: string): (r: seq<string>)
    ensures forall i :: 0 <= i < |r| ==> ' ' !in r[i]
  {
    if ' ' !in s then [s] else DropTrailingEmpty(Pieces(s))
  }

  /** Splitting at the spaces loses nothing: joining the pieces gives `s` back. */
  lemma {:induction false} JoinPieces(s: string)
    ensures Join(Pieces(s)) == s
    decreases |s|
  {
    if |s| > 0 {
      var rest := Pieces(s[1..]);
      JoinPieces(s[1..]);
      if s[0] == ' ' {
        assert Pieces(s) == [""] + rest;
        assert ([""] + rest)[1..] == rest;
      } else {
        var ps := [[s[0]] + rest[0]] + rest[1..];
        assert Pieces(s) == ps;
        if |rest| == 1 {
          assert Join(ps) == [s[0]] + rest[0];
        } else {
          assert ps[1..] == rest[1..];
          assert Join(ps) == [s[0]] + rest[0] + " " + Join(rest[1..]);
        }
        assert s == [s[0]] + s[1..];
      }
    }
  }

  lemma {:induction false} JoinOfEmptyPieces(ps: seq<string>)
    requires |ps| >= 1
    requires forall i :: 0 <= i < |ps| ==> ps[i] == ""
    ensures forall k :: 0 <= k < |Join(ps)| ==> Join(ps)[k] == ' '
    decreases |ps|
  {
    if |ps| > 1 {
      JoinOfEmptyPieces(ps[1..]);
      assert Join(ps) == " " + Join(ps[1..]);
    }
  }

  lemma {:induction false} PiecesOfBlanks(s: string)
    requires forall k :: 0 <= k < |s| ==> s[k] == ' '
    ensures forall i :: 0 <= i < |Pieces(s)| ==> Pieces(s)[i] == ""
    decreases |s|
  {
    if |s| > 0 {
      PiecesOfBlanks(s[1..]);
    }
  }

  /**
   * `split(" ")` yields no piece at all exactly when the string is one or
   * more spaces; then `parts[0]` does not exist.
   */
  lemma SplitEmptyIffBlank(s: string)
    ensures |Split(s)| == 0 <==> (|s| > 0 && forall k :: 0 <= k < |s| ==> s[k] == ' ')
  {
    if |s| > 0 && forall k :: 0 <= k < |s| ==> s[k] == ' ' {
      assert s[0] == ' ';
      PiecesOfBlanks(s);
    }
    if |Split(s)| == 0 {
      assert ' ' in s;
      var ps := Pieces(s);
      JoinOfEmptyPieces(ps);
      JoinPieces(s);
    }
  }

  /** A word without a space is a single piece. */
  lemma {:induction false} PiecesOfWord(w: string)
    requires ' ' !in w
    ensures Pieces(w) == [w]
    decreases |w|
  {
    if |w| > 0 {
      PiecesOfWord(w[1..]);
      assert w == [w[0]] + w[1..];
    }
  }

  /** A space splits off the word before it as a piece of its own. */
  lemma {:induction false} PiecesAfterWord(w: string, rest: string)
    requires ' ' !in w
    ensures Pieces(w + " " + rest) == [w] + Pieces(rest)
    decreases |w|
  {
    if |w| == 0 {
      assert w + " " + rest == [' '] + rest;
      assert (w + " " + rest)[1..] == rest;
    } else {
      PiecesAfterWord(w[1..], rest);
      assert (w + " " + rest)[1..] == w[1..] + " " + rest;
      assert w == [w[0]] + w[1..];
    }
  }

  /** Two words joined by one space split back into those two words. */
  lemma SplitTwoWords(a: string, b: string)
    requires ' ' !in a && ' ' !in b && b != ""
    ensures Split(a + " " + b) == [a, b]
  {
    assert (a + " " + b)[|a|] == ' ';
    PiecesAfterWord(a, b);
    PiecesOfWord(b);
  }
}
