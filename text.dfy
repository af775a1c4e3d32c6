/** String helpers with the JavaScript semantics the core relies on:
    `trim` (over an explicit ASCII whitespace set), truthiness of an optional
    string, `substring(0, n)`, `split(c)[0]`, `indexOf` and `replace` of the
    first occurrence, and `join`. */
module Text {
  import opened Wrappers

  /** The whitespace characters `trim` removes in this model: space, tab,
      line feed, carriage return, vertical tab and form feed. */
  predicate IsSpace(c: char) {
    c == ' ' || c == '\t' || c == '\n' || c == '\r' || c == '\U{000B}' || c == '\U{000C}'
  }

  predicate AllSpace(s: string) {
    forall i :: 0 <= i < |s| ==> IsSpace(s[i])
  }

  /** A JavaScript string value is truthy when it is present and not empty. */
  predicate Truthy(s: Option<string>) {
    s.Some? && s.value != ""
  }

  /** Number of whitespace characters at the start of `s`. */
  function LeadingSpaces(s: string): (n: nat)
    ensures n <= |s|
    ensures forall i :: 0 <= i < n ==> IsSpace(s[i])
    ensures n < |s| ==> !IsSpace(s[n])
  {
    if s == [] || !IsSpace(s[0]) then 0 else 1 + LeadingSpaces(s[1..])
  }

  /** Number of whitespace characters at the end of `s`. */
  function TrailingSpaces(s: string): (n: nat)
    ensures n <= |s|
    ensures forall i :: |s| - n <= i < |s| ==> IsSpace(s[i])
    ensures n < |s| ==> !IsSpace(s[|s| - 1 - n])
  {
    if s == [] || !IsSpace(s[|s| - 1]) then 0 else 1 + TrailingSpaces(s[..|s| - 1])
  }

  /** `s.trim()`: the slice of `s` left after dropping whitespace at both ends. */
  function Trim(s: string): (r: string)
    ensures |r| <= |s|
    ensures r == "" <==> AllSpace(s)
    ensures r != "" ==> !IsSpace(r[0]) && !IsSpace(r[|r| - 1])
    ensures exists a, b :: 0 <= a <= b <= |s| && r == s[a..b]
                           && AllSpace(s[..a]) && AllSpace(s[b..])
  {
    var a := LeadingSpaces(s);
    var t := s[a..];
    var n := TrailingSpaces(t);
    var r := t[..|t| - n];
    assert r == s[a..|s| - n];
    assert AllSpace(s[..a]);
    var tail := s[|s| - n..];
    assert AllSpace(tail) by {
      forall i | 0 <= i < n ensures IsSpace(tail[i]) {
        assert tail[i] == t[|t| - n + i];
      }
    }
    assert r == "" ==> a == |s|;
    r
  }

  /** `!s || s.trim().length === 0` for an optional string. */
  predicate Blank(s: Option<string>) {
    s.None? || Trim(s.value) == ""
  }

  lemma {:induction false} TrimIdempotent(s: string)
    ensures Trim(Trim(s)) == Trim(s)
  {
    var t := Trim(s);
    if t != "" {
      assert LeadingSpaces(t) == 0;
      assert TrailingSpaces(t) == 0;
    }
  }

  /** A string with no whitespace at either end is its own trim. */
  lemma {:induction false} TrimOfTrimmed(s: string)
    requires s != "" && !IsSpace(s[0]) && !IsSpace(s[|s| - 1])
    ensures Trim(s) == s
  {
    assert LeadingSpaces(s) == 0;
    assert TrailingSpaces(s) == 0;
  }

  /** `s.substring(0, n)` (and `s.slice(0, n)`) for a non-negative `n`. */
  function Prefix(s: string, n: nat): (r: string)
    ensures |r| == if n <= |s| then n else |s|
    ensures r <= s
  {
    if n <= |s| then s[..n] else s
  }

  /** `s.split(c)[0]`: everything before the first `c`, or all of `s`. */
  function BeforeFirst(s: string, c: char): (r: string)
    ensures r <= s
    ensures c !in r
    ensures |r| < |s| ==> s[|r|] == c
  {
    if s == [] then ""
    else if s[0] == c then ""
    else [s[0]] + BeforeFirst(s[1..], c)
  }

  predicate OccursAt(s: string, pat: string, i: nat) {
    i + |pat| <= |s| && s[i..i + |pat|] == pat
  }

  lemma OccursShift(s: string, pat: string, j: nat)
    requires 1 <= j <= |s|
    ensures OccursAt(s, pat, j) <==> OccursAt(s[1..], pat, j - 1)
  {
    if j + |pat| <= |s| {
      assert s[j..j + |pat|] == s[1..][j - 1..j - 1 + |pat|];
    }
  }

  /** `s.indexOf(pat)`: the first position where `pat` occurs, if any. */
  function IndexOf(s: string, pat: string): (r: Option<nat>)
    ensures r.Some? ==> OccursAt(s, pat, r.value)
                        && forall j :: 0 <= j < r.value ==> !OccursAt(s, pat, j)
    ensures r.None? ==> forall j :: 0 <= j <= |s| ==> !OccursAt(s, pat, j)
    decreases |s|
  {
    if pat <= s then Some(0)
    else if s == [] then None
    else
      match IndexOf(s[1..], pat)
      case None =>
        assert forall j :: 1 <= j <= |s| ==> !OccursAt(s, pat, j) by {
          forall j | 1 <= j <= |s| ensures !OccursAt(s, pat, j) {
            OccursShift(s, pat, j);
          }
        }
        assert !OccursAt(s, pat, 0);
        None
      case Some(k) =>
        assert s[1..][k..k + |pat|] == s[k + 1..k + 1 + |pat|];
        assert forall j :: 1 <= j < k + 1 ==> !OccursAt(s, pat, j) by {
          forall j | 1 <= j < k + 1 ensures !OccursAt(s, pat, j) {
            OccursShift(s, pat, j);
          }
        }
        Some(k + 1)
  }

  /** `s.replace(pat, rep)` with a string pattern: only the first occurrence is replaced. */
  function ReplaceFirst(s: string, pat: string, rep: string): (r: string)
    ensures IndexOf(s, pat).None? ==> r == s
    ensures IndexOf(s, pat).Some? ==>
              var i := IndexOf(s, pat).value;
              r == s[..i] + rep + s[i + |pat|..]
  {
    match IndexOf(s, pat)
    case None => s
    case Some(i) => s[..i] + rep + s[i + |pat|..]
  }

  /** `parts.join(sep)`. */
  function Join(parts: seq<string>, sep: string): string {
    if parts == [] then ""
    else if |parts| == 1 then parts[0]
    else parts[0] + sep + Join(parts[1..], sep)
  }
}
