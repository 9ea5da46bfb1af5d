/**
 * The string operations the pages use: `toLowerCase`, `includes` and
 * `split(sep)` followed by `pop()`.
 */
module Text {

  /** One character lower-cased; only the ASCII letters A-Z change. */
  function LowerChar(c: char): char
  {
    if 'A' <= c <= 'Z' then (c as int + 32) as char else c
  }

  /** `s.toLowerCase()`, restricted to ASCII letters. */
  function Lower(s: string): (r: string)
    ensures |r| == |s|
    ensures forall i :: 0 <= i < |s| ==> r[i] == LowerChar(s[i])
  {
    seq(|s|, i requires 0 <= i < |s| => LowerChar(s[i]))
  }

  /** Lower-casing twice is lower-casing once. */
  lemma LowerIdempotent(s: string)
    ensures Lower(Lower(s)) == Lower(s)
  {
  }

  /** `n` occurs in `h` starting at position `i`. */
  predicate OccursAt(h: string, n: string, i: int)
  {
    0 <= i && i + |n| <= |h| && h[i..i + |n|] == n
  }

  /** `h.includes(n)`: `n` is a substring of `h`. */
  function Contains(h: string, n: string): (b: bool)
    ensures b <==> exists i :: OccursAt(h, n, i)
    decreases |h|
  {
    if n <= h then
      assert OccursAt(h, n, 0);
      true
    else if h == [] then
      false
    else
      var b := Contains(h[1..], n);
      if b then
        var j :| OccursAt(h[1..], n, j);
        assert h[1..][j..j + |n|] == h[j + 1..j + 1 + |n|];
        assert OccursAt(h, n, j + 1);
        true
      else
        assert !OccursAt(h, n, 0);
        forall i | 0 < i
          ensures OccursAt(h, n, i) == OccursAt(h[1..], n, i - 1)
        {
          if i + |n| <= |h| {
            assert h[i..i + |n|] == h[1..][i - 1..i - 1 + |n|];
          }
        }
        false
  }

  /** Every string contains the empty string, so an empty search term matches everything. */
  lemma ContainsEmpty(h: string)
    ensures Contains(h, "")
  {
  }

  /** `s.split(sep)`: the pieces between the separators, in order; never empty. */
  function Split(s: string, sep: char): (parts: seq<string>)
    ensures |parts| >= 1
    ensures forall k :: 0 <= k < |parts| ==> sep !in parts[k]
  {
    if s == [] then [""]
    else
      var rest := Split(s[1..], sep);
      if s[0] == sep then [""] + rest
      else
        var parts := [[s[0]] + rest[0]] + rest[1..];
        assert forall k :: 1 <= k < |parts| ==> parts[k] == rest[k];
        parts
  }

  /** Without a separator, splitting gives the whole string as its only piece, and only then. */
  lemma {:induction false} SplitSingle(s: string, sep: char)
    ensures |Split(s, sep)| == 1 <==> sep !in s
    ensures sep !in s ==> Split(s, sep) == [s]
  {
    if s != [] {
      SplitSingle(s[1..], sep);
      assert s == [s[0]] + s[1..];
    }
  }

  /** The last piece is a suffix of the string, and a separator stands right before it when there are several. */
  lemma {:induction false} SplitLastSuffix(s: string, sep: char)
    ensures var parts := Split(s, sep); var last := parts[|parts| - 1];
      && |last| <= |s| && s[|s| - |last|..] == last
      && (|parts| > 1 ==> |last| < |s| && s[|s| - |last| - 1] == sep)
  {
    if s != [] {
      SplitLastSuffix(s[1..], sep);
      SplitSingle(s[1..], sep);
      var rest := Split(s[1..], sep);
      var last := rest[|rest| - 1];
      assert s[1..][|s| - 1 - |last|..] == s[|s| - |last|..];
      var parts := Split(s, sep);
      if s[0] == sep {
        assert parts == [""] + rest;
        if |rest| > 1 {
          assert s[|s| - |last| - 1] == s[1..][|s| - 1 - |last| - 1];
        }
      } else if |rest| > 1 {
        assert parts == [[s[0]] + rest[0]] + rest[1..];
        assert parts[|parts| - 1] == last;
        assert s[|s| - |last| - 1] == s[1..][|s| - 1 - |last| - 1];
      } else {
        assert parts == [[s[0]] + s[1..]];
        assert s == [s[0]] + s[1..];
      }
    }
  }

  /** `s.split(sep).pop()`: the piece after the last separator. */
  function LastPiece(s: string, sep: char): (r: string)
    ensures sep !in r
    ensures |r| <= |s| && s[|s| - |r|..] == r
    ensures sep !in s ==> r == s
    ensures sep in s ==> |r| < |s| && s[|s| - |r| - 1] == sep
  {
    var parts := Split(s, sep);
    SplitSingle(s, sep);
    SplitLastSuffix(s, sep);
    parts[|parts| - 1]
  }

  /** `parts.join(sep)`. */
  function Join(parts: seq<string>, sep: char): string
    requires |parts| >= 1
  {
    if |parts| == 1 then parts[0] else parts[0] + [sep] + Join(parts[1..], sep)
  }

  /** Prefixing the first piece with `c` prefixes the joined string with `c`. */
  lemma JoinConsFirst(c: char, ps: seq<string>, sep: char)
    requires |ps| >= 1
    ensures Join([[c] + ps[0]] + ps[1..], sep) == [c] + Join(ps, sep)
  {
  }

  /** Splitting and joining again with the same separator restores the string. */
  lemma {:induction false} JoinSplit(s: string, sep: char)
    ensures Join(Split(s, sep), sep) == s
  {
    if s != [] {
      var rest := Split(s[1..], sep);
      JoinSplit(s[1..], sep);
      var parts := Split(s, sep);
      if s[0] == sep {
        assert parts == [""] + rest;
        assert parts[1..] == rest;
        assert Join(parts, sep) == [sep] + s[1..];
      } else {
        assert parts == [[s[0]] + rest[0]] + rest[1..];
        JoinConsFirst(s[0], rest, sep);
      }
      assert s == [s[0]] + s[1..];
    }
  }
}
