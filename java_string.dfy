/**
 * The two `java.lang.String` operations the package-change listener relies
 * on: `replace(target, "")`, which deletes every occurrence of `target`
 * scanning left to right, and `equalsIgnoreCase`.
 */
module JavaString {

  /** `t` occurs in `s` starting at position `i`. */
  predicate OccursAt(s: string, t: string, i: nat) {
    i + |t| <= |s| && s[i..i + |t|] == t
  }

  /** `t` occurs somewhere in `s`. */
  ghost predicate Contains(s: string, t: string) {
    exists i: nat :: OccursAt(s, t, i)
  }

  /**
   * `s.replace(target, "")`: each leftmost occurrence of `target` is cut out
   * and the scan resumes after it, so the text that closes up around a cut is
   * not scanned again. An empty target leaves `s` as it is.
   */
  function RemoveAll(s: string, target: string): (r: string)
    ensures |r| <= |s|
  {
    if |target| == 0 || |s| < |target| then s
    else if s[..|target|] == target then RemoveAll(s[|target|..], target)
    else [s[0]] + RemoveAll(s[1..], target)
  }

  /** A string without the target comes back unchanged. */
  lemma {:induction false} RemoveAllWithoutTarget(s: string, target: string)
    requires !Contains(s, target)
    ensures RemoveAll(s, target) == s
  {
    if |target| > 0 && |s| >= |target| {
      assert !OccursAt(s, target, 0);
      if Contains(s[1..], target) {
        var i: nat :| OccursAt(s[1..], target, i);
        assert s[1..][i..i + |target|] == s[i + 1..i + 1 + |target|];
        assert OccursAt(s, target, i + 1);
      }
      RemoveAllWithoutTarget(s[1..], target);
      assert s == [s[0]] + s[1..];
    }
  }

  /** A leading occurrence is cut and the rest is scanned as if on its own. */
  lemma RemoveAllLeading(target: string, rest: string)
    requires |target| > 0
    ensures RemoveAll(target + rest, target) == RemoveAll(rest, target)
  {
    assert (target + rest)[..|target|] == target;
    assert (target + rest)[|target|..] == rest;
  }

  /** Where the target does not start, the first character is kept and the scan moves on by one. */
  lemma RemoveAllSkip(s: string, target: string)
    requires 0 < |target| <= |s|
    requires exists k :: 0 <= k < |target| && s[k] != target[k]
    ensures RemoveAll(s, target) == [s[0]] + RemoveAll(s[1..], target)
  {
    var k :| 0 <= k < |target| && s[k] != target[k];
    assert s[..|target|][k] != target[k];
  }

  /**
   * Text in front of the first occurrence is kept as it is, that occurrence
   * is cut, and a remainder free of the target follows unchanged.
   */
  lemma {:induction false} RemoveAllFirstOccurrence(head: string, target: string, rest: string)
    requires |target| > 0 && !Contains(rest, target)
    requires forall i :: 0 <= i < |head| ==> !OccursAt(head + target + rest, target, i)
    ensures RemoveAll(head + target + rest, target) == head + rest
  {
    if head == [] {
      assert head + target + rest == target + rest;
      StripsSinglePrefix(target, rest);
    } else {
      var s := head + target + rest;
      var tail := head[1..] + target + rest;
      assert !OccursAt(s, target, 0);
      assert s[1..] == tail;
      forall i | 0 <= i < |head[1..]| ensures !OccursAt(tail, target, i) {
        assert !OccursAt(s, target, i + 1);
        if i + |target| <= |tail| {
          assert tail[i..i + |target|] == s[i + 1..i + 1 + |target|];
        }
      }
      RemoveAllFirstOccurrence(head[1..], target, rest);
      assert head + rest == [head[0]] + (head[1..] + rest);
    }
  }

  /** A head without the target's first character adds no occurrence in front of `rest`. */
  lemma NotContainsAfterHead(head: string, rest: string, target: string)
    requires |target| > 0 && !Contains(rest, target)
    requires forall k :: 0 <= k < |head| ==> head[k] != target[0]
    ensures !Contains(head + rest, target)
  {
    var s := head + rest;
    forall i: nat ensures !OccursAt(s, target, i) {
      if i + |target| <= |s| {
        if i < |head| {
          assert s[i..i + |target|][0] == head[i];
        } else {
          assert s[i..i + |target|] == rest[i - |head|..i - |head| + |target|];
          assert !OccursAt(rest, target, i - |head|);
        }
      }
    }
  }

  /** The usual data string: the target once in front of a remainder free of it. */
  lemma StripsSinglePrefix(target: string, rest: string)
    requires |target| > 0 && !Contains(rest, target)
    ensures RemoveAll(target + rest, target) == rest
  {
    RemoveAllLeading(target, rest);
    RemoveAllWithoutTarget(rest, target);
  }

  /** ASCII upper-case letters to lower case; every other character unchanged. */
  function ToLower(c: char): (r: char)
    ensures !('A' <= r <= 'Z')
    ensures !('A' <= c <= 'Z') ==> r == c
  {
    if 'A' <= c <= 'Z' then (c as int + 32) as char else c
  }

  /** ASCII lower-case letters to upper case; every other character unchanged. */
  function ToUpper(c: char): (r: char)
    ensures !('a' <= r <= 'z')
    ensures !('a' <= c <= 'z') ==> r == c
  {
    if 'a' <= c <= 'z' then (c as int - 32) as char else c
  }

  /** The per-character test of `String.regionMatches(ignoreCase = true, ...)`. */
  predicate CharEqualsIgnoreCase(c1: char, c2: char) {
    c1 == c2 || ToUpper(c1) == ToUpper(c2) || ToLower(ToUpper(c1)) == ToLower(ToUpper(c2))
  }

  /** `a.equalsIgnoreCase(b)`: same length and every character pair matches ignoring case. */
  predicate EqualsIgnoreCase(a: string, b: string) {
    |a| == |b| && forall i :: 0 <= i < |a| ==> CharEqualsIgnoreCase(a[i], b[i])
  }

  /** The whole string folded to lower case. */
  function Lowered(s: string): (r: string)
    ensures |r| == |s| && forall i :: 0 <= i < |s| ==> r[i] == ToLower(s[i])
  {
    seq(|s|, i requires 0 <= i < |s| => ToLower(s[i]))
  }

  /** Two characters match ignoring case exactly when their lower-case forms are equal. */
  lemma CharEqualsIgnoreCaseIsLowerEquality(c1: char, c2: char)
    ensures CharEqualsIgnoreCase(c1, c2) <==> ToLower(c1) == ToLower(c2)
  {
  }

  /**
   * `equalsIgnoreCase` is equality of the lower-case forms; in particular it
   * is reflexive, symmetric and transitive.
   */
  lemma EqualsIgnoreCaseIsLoweredEquality(a: string, b: string)
    ensures EqualsIgnoreCase(a, b) <==> Lowered(a) == Lowered(b)
  {
    forall i | 0 <= i < |a| && i < |b|
      ensures CharEqualsIgnoreCase(a[i], b[i]) <==> Lowered(a)[i] == Lowered(b)[i]
    {
      CharEqualsIgnoreCaseIsLowerEquality(a[i], b[i]);
    }
    if Lowered(a) == Lowered(b) {
      assert |a| == |b|;
      forall i | 0 <= i < |a| ensures CharEqualsIgnoreCase(a[i], b[i]) {
        assert Lowered(a)[i] == Lowered(b)[i];
      }
    }
  }
}
