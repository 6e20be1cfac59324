/**
 * The handful of Python string operations the core relies on, written out
 * over `seq<char>`: `str.strip()`, `startswith`/`endswith`, `in`, `lower()`,
 * `split(sep)`, `sep.join(...)` and the slice `s[:n]`.
 */
module Text {
  import opened Wrappers

  /** Python's `str.isspace()`: the characters `str.strip()` removes. */
  predicate IsSpace(c: char) {
    || ('\t' <= c <= '\r')
    || ('\U{1C}' <= c <= '\U{1F}')
    || c == ' ' || c == '\U{85}' || c == '\U{A0}' || c == '\U{1680}'
    || ('\U{2000}' <= c <= '\U{200A}')
    || c == '\U{2028}' || c == '\U{2029}' || c == '\U{202F}' || c == '\U{205F}' || c == '\U{3000}'
  }

  ghost predicate AllSpace(s: string) {
    forall k :: 0 <= k < |s| ==> IsSpace(s[k])
  }

  /** `s.lstrip()`: drops the leading whitespace and nothing else. */
  function TrimLeft(s: string): (r: string)
    ensures |r| <= |s| && r == s[|s| - |r|..]
    ensures AllSpace(s[..|s| - |r|])
    ensures r != [] ==> !IsSpace(r[0])
  {
    if s != [] && IsSpace(s[0]) then
      var r := TrimLeft(s[1..]);
      assert s[..|s| - |r|] == [s[0]] + s[1..][..|s| - 1 - |r|];
      assert s[|s| - |r|..] == s[1..][|s| - 1 - |r|..];
      r
    else s
  }

  /** `s.rstrip()`: drops the trailing whitespace and nothing else. */
  function TrimRight(s: string): (r: string)
    ensures |r| <= |s| && r == s[..|r|]
    ensures AllSpace(s[|r|..])
    ensures r != [] ==> !IsSpace(r[|r| - 1])
  {
    if s != [] && IsSpace(s[|s| - 1]) then
      var r := TrimRight(s[..|s| - 1]);
      assert s[|r|..] == s[..|s| - 1][|r|..] + [s[|s| - 1]];
      r
    else s
  }

  /** How much whitespace `s.strip()` cuts off the front of `s`. */
  function StripStart(s: string): nat
  {
    |s| - |TrimLeft(s)|
  }

  /** `s.strip()`: what it keeps is the factor of `s` that starts at `StripStart(s)`, with only
      whitespace cut off either side, and it neither starts nor ends with whitespace. */
  function Strip(s: string): (r: string)
    ensures StripStart(s) + |r| <= |s| && r == s[StripStart(s)..StripStart(s) + |r|]
    ensures AllSpace(s[..StripStart(s)]) && AllSpace(s[StripStart(s) + |r|..])
    ensures r != [] ==> !IsSpace(r[0]) && !IsSpace(r[|r| - 1])
  {
    var l := TrimLeft(s);
    var i := |s| - |l|;
    assert l == s[i..];
    var r := TrimRight(l);
    assert r == s[i..i + |r|];
    assert l[|r|..] == s[i + |r|..];
    r
  }

  /** Neither starts nor ends with whitespace. */
  predicate Trimmed(s: string) {
    s != [] ==> !IsSpace(s[0]) && !IsSpace(s[|s| - 1])
  }

  /** Stripping changes exactly the strings that are not trimmed already. */
  lemma StripTrimmed(s: string)
    ensures Strip(s) == s <==> Trimmed(s)
  {
    if Trimmed(s) {
      assert TrimLeft(s) == s;
      assert TrimRight(s) == s;
    }
  }

  /** Leading whitespace never survives a left trim. */
  lemma {:induction false} TrimLeftAfterSpaces(pad: string, s: string)
    requires AllSpace(pad)
    ensures TrimLeft(pad + s) == TrimLeft(s)
  {
    if pad != [] {
      assert (pad + s)[1..] == pad[1..] + s;
      TrimLeftAfterSpaces(pad[1..], s);
    } else {
      assert pad + s == s;
    }
  }

  /** Leading whitespace never survives a strip. */
  lemma StripAfterSpaces(pad: string, s: string)
    requires AllSpace(pad)
    ensures Strip(pad + s) == Strip(s)
  {
    TrimLeftAfterSpaces(pad, s);
  }

  /** Concatenation regroups; stated once so string-building loops need not rediscover it. */
  lemma AppendAssociative<T>(a: seq<T>, b: seq<T>, c: seq<T>)
    ensures (a + b) + c == a + (b + c)
  {
  }

  /** A suffix is the slice up to a later point, then the suffix from there. */
  lemma DropSplit<T>(s: seq<T>, i: nat, j: nat)
    requires i <= j <= |s|
    ensures s[i..j] + s[j..] == s[i..]
  {
  }

  /** A string is what precedes an index, the character there, and what follows. */
  lemma AroundIndex<T>(s: seq<T>, i: nat)
    requires i < |s|
    ensures s == s[..i] + [s[i]] + s[i + 1..]
  {
  }

  /** A slice of a slice is a slice of the original. */
  lemma SliceOfSlice(s: string, i: nat, j: nat, a: nat, b: nat)
    requires i <= j <= |s| && a <= b <= j - i
    ensures s[i..j][a..b] == s[i + a..i + b]
  {
    assert |s[i..j][a..b]| == b - a;
    forall m | 0 <= m < b - a ensures s[i..j][a..b][m] == s[i + a..i + b][m] {
    }
  }

  predicate StartsWith(s: string, p: string) {
    |p| <= |s| && s[..|p|] == p
  }

  /** A string does not start with a prefix whose first character differs from its own. */
  lemma FirstCharMismatch(s: string, p: string)
    requires |s| > 0 && |p| > 0 && s[0] != p[0]
    ensures !StartsWith(s, p)
  {
    if |p| <= |s| {
      assert s[..|p|][0] == s[0];
    }
  }

  predicate EndsWith(s: string, p: string) {
    |p| <= |s| && s[|s| - |p|..] == p
  }

  /** `p` occurs in `s` starting at index `i`. */
  predicate OccursAt(s: string, p: string, i: nat) {
    i + |p| <= |s| && s[i..i + |p|] == p
  }

  /** The leftmost index at or after `from` where `p` occurs in `s`: `s.find(p, from)`. */
  function IndexOf(s: string, p: string, from: nat): (r: Option<nat>)
    requires from <= |s|
    ensures r.Some? ==> from <= r.value && OccursAt(s, p, r.value)
    ensures forall k :: from <= k && (r.None? || k < r.value) ==> !OccursAt(s, p, k)
    decreases |s| - from
  {
    if OccursAt(s, p, from) then Some(from)
    else if from + |p| >= |s| then None
    else IndexOf(s, p, from + 1)
  }

  /** Python's `p in s`. */
  predicate Contains(s: string, p: string) {
    IndexOf(s, p, 0).Some?
  }

  lemma ContainsIff(s: string, p: string)
    ensures Contains(s, p) <==> exists k :: OccursAt(s, p, k)
  {
    if !Contains(s, p) {
      assert forall k :: 0 <= k ==> !OccursAt(s, p, k);
    }
  }

  /** A pattern with a character the string lacks does not occur in it. */
  lemma MissingCharNotContained(s: string, p: string, j: nat)
    requires j < |p| && p[j] !in s
    ensures !Contains(s, p)
  {
  }

  function LowerChar(c: char): char {
    if 'A' <= c <= 'Z' then (c as int + 32) as char else c
  }

  /** `s.lower()` on the ASCII letters. */
  function Lower(s: string): (r: string)
    ensures |r| == |s|
    ensures forall k :: 0 <= k < |s| ==> r[k] == LowerChar(s[k])
  {
    seq(|s|, k requires 0 <= k < |s| => LowerChar(s[k]))
  }

  lemma LowerIdempotent(s: string)
    ensures Lower(Lower(s)) == Lower(s)
  {
  }

  /** `s[:n]` for a non-negative `n`: the whole string when it is short enough. */
  function Prefix(s: string, n: nat): (r: string)
    ensures |r| == if |s| <= n then |s| else n
    ensures r == s[..|r|]
  {
    if |s| <= n then s else s[..n]
  }

  /** `c * n`. */
  function Repeat(c: char, n: nat): (r: string)
    ensures |r| == n && forall k :: 0 <= k < n ==> r[k] == c
  {
    seq(n, k => c)
  }

  /** `sep.join(parts)`. */
  function Join(parts: seq<string>, sep: string): string
  {
    if |parts| == 0 then ""
    else if |parts| == 1 then parts[0]
    else Join(parts[..|parts| - 1], sep) + sep + parts[|parts| - 1]
  }

  lemma {:induction false} JoinCons(p: string, rest: seq<string>, sep: string)
    requires rest != []
    ensures Join([p] + rest, sep) == p + sep + Join(rest, sep)
    decreases |rest|
  {
    var all := [p] + rest;
    if |rest| == 1 {
      assert all[..1] == [p];
    } else {
      assert all[..|all| - 1] == [p] + rest[..|rest| - 1];
      JoinCons(p, rest[..|rest| - 1], sep);
    }
  }

  /** `s.split(sep)` for a one-character separator: at least one piece, none containing `sep`. */
  function Split(s: string, sep: char): (r: seq<string>)
    ensures |r| >= 1
    ensures forall k :: 0 <= k < |r| ==> sep !in r[k]
    decreases |s|
  {
    var i := IndexOf(s, [sep], 0);
    if i.None? then
      assert sep !in s by {
        forall k | 0 <= k < |s| ensures s[k] != sep {
          assert !OccursAt(s, [sep], k);
          assert s[k..k + 1] == [s[k]];
        }
      }
      [s]
    else
      assert sep !in s[..i.value] by {
        forall k | 0 <= k < i.value ensures s[k] != sep {
          assert !OccursAt(s, [sep], k);
          assert s[k..k + 1] == [s[k]];
        }
      }
      [s[..i.value]] + Split(s[i.value + 1..], sep)
  }

  /** Joining the pieces of a split with the same separator gives back the string. */
  lemma {:induction false} JoinSplit(s: string, sep: char)
    ensures Join(Split(s, sep), [sep]) == s
    decreases |s|
  {
    var i := IndexOf(s, [sep], 0);
    if i.Some? {
      var front, rest := s[..i.value], s[i.value + 1..];
      assert Split(s, sep) == [front] + Split(rest, sep);
      JoinSplit(rest, sep);
      JoinCons(front, Split(rest, sep), [sep]);
      assert s[i.value..i.value + 1] == [sep];
      AroundIndex(s, i.value);
    } else {
      assert Split(s, sep) == [s];
    }
  }

  /** Splitting a join of separator-free pieces gives back the pieces. */
  lemma {:induction false} SplitJoin(parts: seq<string>, sep: char)
    requires |parts| >= 1
    requires forall k :: 0 <= k < |parts| ==> sep !in parts[k]
    ensures Split(Join(parts, [sep]), sep) == parts
    decreases |parts|
  {
    var p := parts[0];
    if |parts| == 1 {
      forall k | 0 <= k ensures !OccursAt(p, [sep], k) {
        if k < |p| {
          assert p[k..k + 1] == [p[k]];
        }
      }
    } else {
      var rest := parts[1..];
      assert parts == [p] + rest;
      JoinCons(p, rest, [sep]);
      var s := Join(parts, [sep]);
      assert s == p + [sep] + Join(rest, [sep]);
      var i := IndexOf(s, [sep], 0);
      assert OccursAt(s, [sep], |p|);
      forall k | 0 <= k < |p| ensures !OccursAt(s, [sep], k) {
        assert s[k] == p[k];
      }
      assert i == Some(|p|);
      assert s[..|p|] == p;
      assert s[|p| + 1..] == Join(rest, [sep]);
      SplitJoin(rest, sep);
    }
  }
}
