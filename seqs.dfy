/** Sequence helpers with JavaScript array semantics: `filter(y => y !== x)`,
    `slice(0, -1)`, `slice(start)` with a possibly negative start, and string
    concatenation of a list of chunks. */
module Seqs {

  /** `s.filter(y => y !== x)`. */
  function RemoveAll<T(==,!new)>(s: seq<T>, x: T): (r: seq<T>)
    ensures x !in r
    ensures |r| <= |s|
    ensures forall y :: y != x ==> multiset(r)[y] == multiset(s)[y]
  {
    if s == [] then []
    else
      var rest := RemoveAll(s[1..], x);
      assert s == [s[0]] + s[1..];
      if s[0] == x then rest else [s[0]] + rest
  }

  /** Filtering distributes over concatenation, so the kept elements stay in
      their original relative order. */
  lemma {:induction false} RemoveAllAppend<T(!new)>(a: seq<T>, b: seq<T>, x: T)
    ensures RemoveAll(a + b, x) == RemoveAll(a, x) + RemoveAll(b, x)
  {
    if a != [] {
      assert (a + b)[0] == a[0];
      assert (a + b)[1..] == a[1..] + b;
      RemoveAllAppend(a[1..], b, x);
      if a[0] != x {
        calc {
          RemoveAll(a + b, x);
          [a[0]] + RemoveAll(a[1..] + b, x);
          [a[0]] + (RemoveAll(a[1..], x) + RemoveAll(b, x));
          ([a[0]] + RemoveAll(a[1..], x)) + RemoveAll(b, x);
        }
      }
    } else {
      assert a + b == b;
    }
  }

  /** Removing an element that does not occur changes nothing. */
  lemma {:induction false} RemoveAllAbsent<T(!new)>(s: seq<T>, x: T)
    requires x !in s
    ensures RemoveAll(s, x) == s
  {
    if s != [] {
      RemoveAllAbsent(s[1..], x);
    }
  }

  /** `s.slice(0, -1)`: everything but the last element; empty stays empty. */
  function DropLast<T>(s: seq<T>): (r: seq<T>)
    ensures |s| == 0 ==> r == []
    ensures |s| > 0 ==> |r| == |s| - 1 && r + [s[|s| - 1]] == s
  {
    if |s| == 0 then [] else s[..|s| - 1]
  }

  /** `s.slice(start)`: a negative start counts from the end, clamped at 0;
      a start past the end gives the empty sequence. */
  function SliceFrom<T>(s: seq<T>, start: int): (r: seq<T>)
    ensures |r| <= |s|
    ensures r == s[|s| - |r|..]
    ensures start < 0 ==> |r| == if -start <= |s| then -start else |s|
    ensures start >= 0 ==> |r| == if start <= |s| then |s| - start else 0
  {
    if start < 0 then
      (if -start <= |s| then s[|s| + start..] else s)
    else
      (if start <= |s| then s[start..] else [])
  }

  /** The string obtained by appending the chunks in order. */
  function Concat(chunks: seq<string>): (r: string)
    ensures chunks == [] ==> r == ""
  {
    if chunks == [] then "" else Concat(chunks[..|chunks| - 1]) + chunks[|chunks| - 1]
  }
}
