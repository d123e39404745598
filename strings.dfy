/** String helpers: the parts of Python's str and list behaviour the model relies on. */
module Strings {

  /** An ASCII decimal digit. */
  predicate IsDigit(c: char) {
    '0' <= c <= '9'
  }

  /** `s.isdigit()`, restricted to ASCII digits: non-empty and all digits. */
  predicate IsDigits(s: string) {
    |s| > 0 && forall i | 0 <= i < |s| :: IsDigit(s[i])
  }

  /** The test `s.isdigit() and len(s) == 12` that recognises an AWS account ID. */
  predicate IsAccountId(s: string) {
    |s| == 12 && IsDigits(s)
  }

  /** `t in s` for strings: `t` occurs in `s` as a contiguous substring. */
  predicate Contains(s: string, t: string)
    decreases |s|
  {
    t <= s || (|s| > 0 && Contains(s[1..], t))
  }

  /** Contains finds exactly the positions where `t` starts. */
  lemma {:induction false} ContainsAt(s: string, t: string)
    ensures Contains(s, t) <==> exists i | 0 <= i <= |s| :: t <= s[i..]
    decreases |s|
  {
    if Contains(s, t) {
      ContainsWitness(s, t);
    }
    if exists i | 0 <= i <= |s| :: t <= s[i..] {
      var i :| 0 <= i <= |s| && t <= s[i..];
      ContainsFrom(s, t, i);
    }
  }

  lemma {:induction false} ContainsWitness(s: string, t: string)
    requires Contains(s, t)
    ensures exists i | 0 <= i <= |s| :: t <= s[i..]
    decreases |s|
  {
    if t <= s {
      assert s[0..] == s;
    } else {
      ContainsWitness(s[1..], t);
      var i :| 0 <= i <= |s[1..]| && t <= s[1..][i..];
      assert s[1..][i..] == s[i + 1..];
    }
  }

  lemma {:induction false} ContainsFrom(s: string, t: string, i: nat)
    requires i <= |s| && t <= s[i..]
    ensures Contains(s, t)
    decreases i
  {
    if i > 0 {
      assert s[1..][i - 1..] == s[i..];
      ContainsFrom(s[1..], t, i - 1);
    } else {
      assert s[0..] == s;
    }
  }

  predicate StartsWith(s: string, prefix: string) {
    prefix <= s
  }

  predicate EndsWith(s: string, suffix: string) {
    |suffix| <= |s| && s[|s| - |suffix|..] == suffix
  }

  /** `s.split(sep)` for a one-character separator: the fields between separators. */
  function Split(s: string, sep: char): (parts: seq<string>)
    ensures |parts| >= 1
    ensures forall i | 0 <= i < |parts| :: sep !in parts[i]
    decreases |s|
  {
    if |s| == 0 then [""]
    else
      var rest := Split(s[1..], sep);
      if s[0] == sep then [""] + rest
      else [[s[0]] + rest[0]] + rest[1..]
  }

  /** `sep.join(parts)`, the inverse of Split. */
  function Join(parts: seq<string>, sep: char): string
    decreases |parts|
  {
    if |parts| == 0 then ""
    else if |parts| == 1 then parts[0]
    else parts[0] + [sep] + Join(parts[1..], sep)
  }

  /** Joining the fields of a split gives back the string. */
  lemma {:induction false} JoinSplit(s: string, sep: char)
    ensures Join(Split(s, sep), sep) == s
    decreases |s|
  {
    if |s| > 0 {
      JoinSplit(s[1..], sep);
      var rest := Split(s[1..], sep);
      if s[0] != sep && |rest| > 1 {
        assert ([[s[0]] + rest[0]] + rest[1..])[1..] == rest[1..];
      }
    }
  }

  /** Splitting a join of separator-free fields gives back the fields. */
  lemma {:induction false} SplitJoin(parts: seq<string>, sep: char)
    requires |parts| >= 1
    requires forall i | 0 <= i < |parts| :: sep !in parts[i]
    ensures Split(Join(parts, sep), sep) == parts
    decreases |parts|, |parts[0]|
  {
    if |parts[0]| > 0 {
      var tail := [parts[0][1..]] + parts[1..];
      SplitJoin(tail, sep);
      assert Join(parts, sep) == [parts[0][0]] + Join(tail, sep) by {
        if |parts| > 1 {
          assert tail[1..] == parts[1..];
        }
      }
      assert (Join(parts, sep))[1..] == Join(tail, sep);
      assert parts[0] == [parts[0][0]] + tail[0];
      assert parts == [parts[0]] + tail[1..];
    } else if |parts| > 1 {
      SplitJoin(parts[1..], sep);
      assert Join(parts, sep) == [sep] + Join(parts[1..], sep);
      assert (Join(parts, sep))[1..] == Join(parts[1..], sep);
      assert parts == [""] + parts[1..];
    }
  }

  /** `s.split(sep)[0]` for a non-empty separator: the text before the first `sep`. */
  function TextBefore(s: string, sep: string): (r: string)
    requires |sep| > 0
    ensures r <= s
    ensures forall i | 0 <= i < |r| :: !(sep <= s[i..])
    ensures |r| < |s| ==> sep <= s[|r|..]
    decreases |s|
  {
    if sep <= s || |s| == 0 then ""
    else
      var rest := TextBefore(s[1..], sep);
      assert forall i | 1 <= i < 1 + |rest| :: s[i..] == s[1..][i - 1..];
      [s[0]] + rest
  }

  /** The elements of a list of strings, as a set. */
  function Elems(s: seq<string>): (r: set<string>)
    ensures forall x :: x in r <==> x in s
  {
    set x | x in s
  }

  /** One more element of a prefix adds it to the prefix's elements. */
  lemma ElemsSnoc(s: seq<string>, j: nat)
    requires j < |s|
    ensures Elems(s[..j + 1]) == Elems(s[..j]) + {s[j]}
  {
    assert s[..j + 1] == s[..j] + [s[j]];
  }

  /** Adding an element already present leaves a set as it was. */
  lemma AddPresent(s: set<string>, x: string)
    requires x in s
    ensures s + {x} == s
  {
  }

  /** No element occurs twice. */
  predicate NoDup<T(==)>(s: seq<T>) {
    forall i, j | 0 <= i < j < |s| :: s[i] != s[j]
  }

  /** The elements of `s` once each, in order of first occurrence (`list(set(s))`). */
  function Dedup(s: seq<string>): (r: seq<string>)
    ensures NoDup(r)
    ensures forall x :: x in r <==> x in s
    decreases |s|
  {
    if |s| == 0 then []
    else
      var rest := Dedup(s[..|s| - 1]);
      var x := s[|s| - 1];
      assert forall y :: y in s <==> y in s[..|s| - 1] || y == x;
      if x in rest then rest else rest + [x]
  }

  /** `set.add` on an insertion-ordered set kept as a duplicate-free sequence. */
  function Add(s: seq<string>, x: string): (r: seq<string>)
    ensures NoDup(s) ==> NoDup(r)
    ensures forall y :: y in r <==> y in s || y == x
    ensures s <= r
  {
    if x in s then s else s + [x]
  }

  /** The decimal spelling of a natural number. */
  function NatToString(n: nat): (r: string)
    ensures |r| > 0 && forall i | 0 <= i < |r| :: IsDigit(r[i])
    decreases n
  {
    var d := "0123456789"[n % 10];
    if n < 10 then [d] else NatToString(n / 10) + [d]
  }
}
