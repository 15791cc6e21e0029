/**
 * The few string operations the consultation gate and the image message rely on:
 * Python's `str.lower` (ASCII letters only), `str.strip`, the substring test `p in s`,
 * `sep.join(xs)` and `s.split(sep)`.
 */
module Text {

  /** Python's `str.lower` on one character, restricted to the ASCII letters. */
  function LowerChar(c: char): char {
    if 'A' <= c <= 'Z' then (c as int + 32) as char else c
  }

  function Lower(s: string): (r: string)
    ensures |r| == |s|
  {
    seq(|s|, i requires 0 <= i < |s| => LowerChar(s[i]))
  }

  /** The characters Python's `str.isspace` accepts, hence the ones `str.strip()` removes. */
  predicate IsSpace(c: char) {
    var n := c as int;
    || 9 <= n <= 13
    || 0x1C <= n <= 0x20
    || n == 0x85 || n == 0xA0 || n == 0x1680
    || 0x2000 <= n <= 0x200A
    || n == 0x2028 || n == 0x2029 || n == 0x202F || n == 0x205F || n == 0x3000
  }

  function TrimLeft(s: string): string
    decreases |s|
  {
    if |s| > 0 && IsSpace(s[0]) then TrimLeft(s[1..]) else s
  }

  function TrimRight(s: string): string
    decreases |s|
  {
    if |s| > 0 && IsSpace(s[|s| - 1]) then TrimRight(s[..|s| - 1]) else s
  }

  /** Python's `str.strip()` with no argument. */
  function Strip(s: string): string {
    TrimRight(TrimLeft(s))
  }

  /** Python's `p in s` for strings, computed by scanning `s` from the left. */
  function Contains(s: string, p: string): bool
    decreases |s|
  {
    |p| <= |s| && (s[..|p|] == p || (|s| > 0 && Contains(s[1..], p)))
  }

  /** `p` occurs in `s` starting at index `i`. */
  ghost predicate OccursAt(s: string, p: string, i: int) {
    0 <= i && i + |p| <= |s| && s[i..i + |p|] == p
  }

  ghost predicate HasOccurrence(s: string, p: string) {
    exists i :: OccursAt(s, p, i)
  }

  /** Python's `any(p in s for p in phrases)`. */
  function ContainsAny(s: string, phrases: seq<string>): bool
    decreases |phrases|
  {
    |phrases| > 0 && (Contains(s, phrases[0]) || ContainsAny(s, phrases[1..]))
  }

  /** The scanning test agrees with the positional definition of a substring, in both directions. */
  lemma {:induction false} ContainsIffOccurs(s: string, p: string)
    ensures Contains(s, p) <==> HasOccurrence(s, p)
    decreases |s|
  {
    if |p| <= |s| {
      if s[..|p|] == p {
        assert OccursAt(s, p, 0);
      } else {
        if |s| > 0 {
          ContainsIffOccurs(s[1..], p);
          if HasOccurrence(s[1..], p) {
            var i :| OccursAt(s[1..], p, i);
            assert s[i + 1..i + 1 + |p|] == s[1..][i..i + |p|];
            assert OccursAt(s, p, i + 1);
          }
        }
        if HasOccurrence(s, p) {
          var i :| OccursAt(s, p, i);
          assert i != 0;
          assert s[1..][i - 1..i - 1 + |p|] == s[i..i + |p|];
          assert OccursAt(s[1..], p, i - 1);
        }
      }
    }
  }

  /** `any(p in s for p in phrases)` holds exactly when one of the phrases occurs somewhere in `s`. */
  lemma {:induction false} ContainsAnyIff(s: string, phrases: seq<string>)
    ensures ContainsAny(s, phrases) <==> exists k :: 0 <= k < |phrases| && HasOccurrence(s, phrases[k])
    decreases |phrases|
  {
    if |phrases| > 0 {
      ContainsIffOccurs(s, phrases[0]);
      ContainsAnyIff(s, phrases[1..]);
      if exists k :: 0 <= k < |phrases| && HasOccurrence(s, phrases[k]) {
        var k :| 0 <= k < |phrases| && HasOccurrence(s, phrases[k]);
        if k > 0 {
          assert phrases[1..][k - 1] == phrases[k];
        }
      }
      if ContainsAny(s, phrases[1..]) {
        var k :| 0 <= k < |phrases[1..]| && HasOccurrence(s, phrases[1..][k]);
        assert phrases[k + 1] == phrases[1..][k];
      }
    }
  }

  /** A phrase whose ends are not blank is found in `s` exactly when it is found in `Strip(s)`. */
  ghost predicate TrimmedPhrase(p: string) {
    |p| > 0 && !IsSpace(p[0]) && !IsSpace(p[|p| - 1])
  }

  lemma {:induction false} TrimLeftKeepsPhrase(s: string, p: string)
    requires TrimmedPhrase(p)
    ensures Contains(TrimLeft(s), p) == Contains(s, p)
    decreases |s|
  {
    if |s| > 0 && IsSpace(s[0]) {
      if |p| <= |s| {
        assert s[..|p|][0] == s[0];
      }
      TrimLeftKeepsPhrase(s[1..], p);
    }
  }

  /** Dropping one trailing blank from `s` does not change whether a trimmed phrase occurs in it. */
  lemma {:induction false} DropTrailingSpace(s: string, p: string)
    requires TrimmedPhrase(p)
    requires |s| > 0 && IsSpace(s[|s| - 1])
    ensures Contains(s[..|s| - 1], p) == Contains(s, p)
    decreases |s|
  {
    var t := s[..|s| - 1];
    if |p| == |s| {
      assert s[..|p|][|p| - 1] == s[|s| - 1];
    } else if |p| < |s| {
      assert t[..|p|] == s[..|p|];
      DropTrailingSpace(s[1..], p);
      assert s[1..][..|s| - 2] == t[1..];
    }
  }

  lemma {:induction false} TrimRightKeepsPhrase(s: string, p: string)
    requires TrimmedPhrase(p)
    ensures Contains(TrimRight(s), p) == Contains(s, p)
    decreases |s|
  {
    if |s| > 0 && IsSpace(s[|s| - 1]) {
      DropTrailingSpace(s, p);
      TrimRightKeepsPhrase(s[..|s| - 1], p);
    }
  }

  lemma StripKeepsPhrase(s: string, p: string)
    requires TrimmedPhrase(p)
    ensures Contains(Strip(s), p) == Contains(s, p)
  {
    TrimRightKeepsPhrase(TrimLeft(s), p);
    TrimLeftKeepsPhrase(s, p);
  }

  /** Python's `sep.join(xs)`. */
  function Join(sep: string, xs: seq<string>): string
    decreases |xs|
  {
    if |xs| == 0 then ""
    else if |xs| == 1 then xs[0]
    else xs[0] + sep + Join(sep, xs[1..])
  }

  /** Python's `s.split(c)` for a one-character separator. */
  function Split(s: string, c: char): (r: seq<string>)
    ensures |r| > 0
    decreases |s|
  {
    if |s| == 0 then [""]
    else if s[0] == c then [""] + Split(s[1..], c)
    else var rest := Split(s[1..], c); [[s[0]] + rest[0]] + rest[1..]
  }

  lemma {:induction false} SplitAfterPlainPrefix(a: string, b: string, c: char)
    requires c !in a
    ensures Split(a + [c] + b, c) == [a] + Split(b, c)
    ensures Split(a, c) == [a]
    decreases |a|
  {
    if |a| == 0 {
      assert a + [c] + b == [c] + b;
      assert ([c] + b)[1..] == b;
    } else {
      SplitAfterPlainPrefix(a[1..], b, c);
      assert (a + [c] + b)[1..] == a[1..] + [c] + b;
      assert [a[0]] + a[1..] == a;
    }
  }

  /** Splitting a join on its separator gives the pieces back, when no piece holds the separator. */
  lemma {:induction false} SplitJoin(xs: seq<string>, c: char)
    requires |xs| > 0
    requires forall i :: 0 <= i < |xs| ==> c !in xs[i]
    ensures Split(Join([c], xs), c) == xs
    decreases |xs|
  {
    if |xs| == 1 {
      SplitAfterPlainPrefix(xs[0], "", c);
    } else {
      SplitJoin(xs[1..], c);
      SplitAfterPlainPrefix(xs[0], Join([c], xs[1..]), c);
      assert [xs[0]] + xs[1..] == xs;
    }
  }
}
