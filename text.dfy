/**
 * The few Python string operations the codec is built from, on `seq<char>`:
 * slicing off the first character, `str.find` for one character and
 * `str.split` with a one-character separator, together with `Join`, the
 * inverse of `Split` that the round-trip proofs use.
 */
module Text {

  /** `s[1:]`: `s` without its first character (empty stays empty). */
  function Tail(s: string): string {
    if |s| == 0 then s else s[1..]
  }

  /** `s.find(c)`: the index of the first `c` in `s`, or -1 when there is none. */
  function Find(s: string, c: char): (k: int)
    ensures -1 <= k < |s|
    ensures k == -1 <==> c !in s
    ensures 0 <= k ==> s[k] == c && c !in s[..k]
    decreases |s|
  {
    if |s| == 0 then -1
    else if s[0] == c then 0
    else
      var k := Find(s[1..], c);
      if k == -1 then -1
      else
        assert s[..k + 1] == [s[0]] + s[1..][..k];
        k + 1
  }

  /** The first `c` is at `i` exactly when `s[i] == c` and no `c` comes before it. */
  lemma FindAt(s: string, c: char, i: int)
    requires 0 <= i < |s| && s[i] == c && c !in s[..i]
    ensures Find(s, c) == i
  {
  }

  /**
   * `s.split(sep)`: the pieces of `s` between occurrences of `sep`. There is
   * more than one piece exactly when `sep` occurs, and the first piece is the
   * text before the first `sep` (all of `s` when there is none).
   */
  function Split(s: string, sep: char): (parts: seq<string>)
    ensures |parts| >= 1
    ensures |parts| == 1 <==> sep !in s
    ensures sep !in parts[0] && parts[0] <= s && (|parts[0]| == |s| || s[|parts[0]|] == sep)
    decreases |s|
  {
    var k := Find(s, sep);
    if k == -1 then [s] else [s[..k]] + Split(s[k + 1..], sep)
  }

  /** One cut of `Split`: the text before the first separator, then the pieces of the rest. */
  lemma SplitUnfold(s: string, sep: char)
    requires sep in s
    ensures Split(s, sep) == [s[..Find(s, sep)]] + Split(s[Find(s, sep) + 1..], sep)
  {
  }

  /** Appending is associative; the loops that build a sequence one element at a time use it. */
  lemma AppendAssoc<T>(a: seq<T>, b: seq<T>, c: seq<T>)
    ensures a + b + c == a + (b + c)
  {
  }

  /** Slicing within the first part of a concatenation. */
  lemma SliceOfAppend<T>(a: seq<T>, b: seq<T>, i: nat)
    requires i <= |a|
    ensures (a + b)[..i] == a[..i] && (a + b)[i..] == a[i..] + b
  {
    assert (a + b)[i..] == a[i..] + b;
  }

  /** The parts around one element in the middle of a sequence. */
  lemma AroundSeparator<T>(x: seq<T>, c: T, y: seq<T>)
    ensures (x + [c] + y)[..|x|] == x && (x + [c] + y)[|x|] == c && (x + [c] + y)[|x| + 1..] == y
  {
  }

  /** The last element of a non-empty sequence. */
  function Last<T>(xs: seq<T>): T
    requires |xs| > 0
  {
    xs[|xs| - 1]
  }

  /** Putting an element in front does not change the last one. */
  lemma LastOfCons<T>(x: T, xs: seq<T>)
    requires |xs| > 0
    ensures Last([x] + xs) == Last(xs)
  {
  }

  /** Counting a character on both sides of position `k`. */
  lemma CountAround(s: string, k: int, c: char)
    requires 0 <= k < |s|
    ensures multiset(s)[c] == multiset(s[..k])[c] + multiset([s[k]])[c] + multiset(s[k + 1..])[c]
  {
    SliceAround(s, k);
    assert multiset(s) == multiset(s[..k]) + multiset([s[k]]) + multiset(s[k + 1..]);
  }

  /** A character that does not occur is counted zero times. */
  lemma CountAbsent(t: string, c: char)
    requires c !in t
    ensures multiset(t)[c] == 0
  {
  }

  /** The first separator is counted once; the text after it holds the others. */
  lemma CountCut(s: string, sep: char)
    requires sep in s
    ensures multiset(s)[sep] == multiset(s[Find(s, sep) + 1..])[sep] + 1
  {
    var k := Find(s, sep);
    CountAround(s, k, sep);
    CountAbsent(s[..k], sep);
    assert multiset([s[k]])[sep] == 1;
  }

  /** There is one piece more than there are separators. */
  lemma {:induction false} SplitCount(s: string, sep: char)
    ensures |Split(s, sep)| == multiset(s)[sep] + 1
    decreases |s|
  {
    if sep in s {
      var rest := s[Find(s, sep) + 1..];
      SplitCount(rest, sep);
      SplitUnfold(s, sep);
      CountCut(s, sep);
    } else {
      CountAbsent(s, sep);
    }
  }

  /** No piece holds the separator. */
  lemma {:induction false} SplitPieces(s: string, sep: char, i: int)
    requires 0 <= i < |Split(s, sep)|
    ensures sep !in Split(s, sep)[i]
    decreases |s|
  {
    if i > 0 {
      LaterPiece(s, sep, i);
      SplitPieces(s[Find(s, sep) + 1..], sep, i - 1);
    }
  }

  /** A piece after the first is a piece of the text after the first separator. */
  lemma LaterPiece(s: string, sep: char, i: int)
    requires 0 < i < |Split(s, sep)|
    ensures sep in s && 0 <= Find(s, sep)
    ensures 0 <= i - 1 < |Split(s[Find(s, sep) + 1..], sep)|
    ensures Split(s, sep)[i] == Split(s[Find(s, sep) + 1..], sep)[i - 1]
  {
    var k := Find(s, sep);
    SplitUnfold(s, sep);
    AfterFirst(s[..k], Split(s[k + 1..], sep), i);
  }

  /** Past the first element of `[x] + xs` come the elements of `xs`. */
  lemma AfterFirst<T>(x: T, xs: seq<T>, i: int)
    requires 0 < i <= |xs|
    ensures ([x] + xs)[i] == xs[i - 1]
  {
  }

  /** `sep.join(parts)`. */
  function Join(parts: seq<string>, sep: char): string
    requires |parts| > 0
  {
    if |parts| == 1 then parts[0] else parts[0] + [sep] + Join(parts[1..], sep)
  }

  /** Joining a first piece with more pieces puts one separator between them. */
  lemma JoinCons(first: string, rest: seq<string>, sep: char)
    requires |rest| > 0
    ensures Join([first] + rest, sep) == first + [sep] + Join(rest, sep)
  {
    assert ([first] + rest)[1..] == rest;
  }

  /** A text is the part before position `k`, the character at `k`, and the part after. */
  lemma SliceAround(s: string, k: int)
    requires 0 <= k < |s|
    ensures s == s[..k] + [s[k]] + s[k + 1..]
  {
    assert s == s[..k] + s[k..];
    assert s[k..] == [s[k]] + s[k + 1..];
  }

  /** Splitting and joining again gives back the text. */
  lemma {:induction false} JoinSplit(s: string, sep: char)
    ensures Join(Split(s, sep), sep) == s
    decreases |s|
  {
    var k := Find(s, sep);
    if k != -1 {
      var rest := s[k + 1..];
      JoinSplit(rest, sep);
      SplitUnfold(s, sep);
      JoinCons(s[..k], Split(rest, sep), sep);
      SliceAround(s, k);
    }
  }

  /** In `first + [sep] + rest` with no `sep` in `first`, the first separator comes right after `first`. */
  lemma CutJoined(first: string, rest: string, sep: char)
    requires sep !in first
    ensures var s := first + [sep] + rest;
      && Find(s, sep) == |first| && s[..|first|] == first && s[|first| + 1..] == rest
  {
    var s := first + [sep] + rest;
    assert s[..|first|] == first && s[|first|] == sep;
    FindAt(s, sep, |first|);
    assert s[|first| + 1..] == rest;
  }

  /** Joining pieces free of the separator and splitting again gives back the pieces. */
  lemma {:induction false} SplitJoin(parts: seq<string>, sep: char)
    requires |parts| > 0
    requires forall i :: 0 <= i < |parts| ==> sep !in parts[i]
    ensures Split(Join(parts, sep), sep) == parts
  {
    if |parts| > 1 {
      var first, more := parts[0], parts[1..];
      JoinCons(first, more, sep);
      assert [first] + more == parts;
      CutJoined(first, Join(more, sep), sep);
      SplitUnfold(first + [sep] + Join(more, sep), sep);
      SplitJoin(more, sep);
    }
  }

  /** A character other than the separator can be found in a joined text only inside a piece. */
  lemma {:induction false} NotInJoin(parts: seq<string>, sep: char, c: char)
    requires |parts| > 0 && c != sep
    requires forall i :: 0 <= i < |parts| ==> c !in parts[i]
    ensures c !in Join(parts, sep)
  {
    if |parts| > 1 {
      NotInJoin(parts[1..], sep, c);
    }
  }
}
