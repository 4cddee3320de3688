/** Text searching used by the HEAD parser and by the rebase outcome classifier:
    the leftmost occurrence of a fixed pattern (the effect of Go's unanchored
    `regexp.FindStringSubmatch` prefix search and of `strings.Contains`) and
    "everything up to the first newline" (the effect of `.*`, whose `.` does not
    match a newline). */
module Text {

  datatype Option<T> = None | Some(value: T)

  datatype Result<T, E> = Ok(value: T) | Err(error: E)

  /** `pat` occurs in `s` starting at index `i`. */
  predicate OccursAt(s: string, pat: string, i: nat)
  {
    i + |pat| <= |s| && s[i..i + |pat|] == pat
  }

  /** `i` is the leftmost position at which `pat` occurs in `s`. */
  predicate LeftmostAt(s: string, pat: string, i: nat)
  {
    OccursAt(s, pat, i) && forall j: nat :: j < i ==> !OccursAt(s, pat, j)
  }

  /** Reference definition of "s contains pat". */
  ghost predicate HasSubstring(s: string, pat: string)
  {
    exists i: nat :: OccursAt(s, pat, i)
  }

  /** The first position at or after `from` where `pat` occurs in `s`. */
  function FindFrom(s: string, pat: string, from: nat): (r: Option<nat>)
    requires from <= |s|
    ensures r.Some? ==> from <= r.value && OccursAt(s, pat, r.value)
    ensures forall j: nat :: from <= j && (r.None? || j < r.value) ==> !OccursAt(s, pat, j)
    decreases |s| - from
  {
    if OccursAt(s, pat, from) then Some(from)
    else if from == |s| then None
    else FindFrom(s, pat, from + 1)
  }

  /** The leftmost occurrence of `pat` in `s`, if any. */
  function IndexOf(s: string, pat: string): (r: Option<nat>)
    ensures r.Some? ==> LeftmostAt(s, pat, r.value)
    ensures r.None? <==> !HasSubstring(s, pat)
  {
    FindFrom(s, pat, 0)
  }

  /** Go's `strings.Contains(s, pat)`. */
  predicate Contains(s: string, pat: string)
    ensures Contains(s, pat) <==> HasSubstring(s, pat)
  {
    IndexOf(s, pat).Some?
  }

  /** The longest prefix of `s` that holds no newline. */
  function TakeLine(s: string): (line: string)
    ensures line <= s
    ensures '\n' !in line
    ensures |line| == |s| || s[|line|] == '\n'
  {
    if s == [] || s[0] == '\n' then [] else [s[0]] + TakeLine(s[1..])
  }

  /** A line followed by a newline is cut exactly at that newline. */
  lemma {:induction false} TakeLineOfLine(line: string, rest: string)
    requires '\n' !in line
    ensures TakeLine(line + "\n" + rest) == line
  {
    if line != [] {
      assert (line + "\n" + rest)[1..] == line[1..] + "\n" + rest;
      TakeLineOfLine(line[1..], rest);
    }
  }

  /** Text without a newline is taken whole. */
  lemma {:induction false} TakeLineOfText(line: string)
    requires '\n' !in line
    ensures TakeLine(line) == line
  {
    if line != [] {
      TakeLineOfText(line[1..]);
    }
  }

  /** An occurrence of `a` followed by text starting with `b` is an occurrence of `a + b`. */
  lemma OccursThenPrefix(s: string, a: string, b: string, i: nat)
    requires OccursAt(s, a, i) && b <= s[i + |a|..]
    ensures OccursAt(s, a + b, i)
  {
    assert s[i..i + |a| + |b|] == s[i..i + |a|] + s[i + |a|..i + |a| + |b|];
    assert s[i + |a|..i + |a| + |b|] == s[i + |a|..][..|b|];
  }

  /** A pattern whose first character does not appear in `s` does not occur in it. */
  lemma AbsentFirstChar(s: string, pat: string)
    requires 0 < |pat| && pat[0] !in s
    ensures !HasSubstring(s, pat)
  {
    forall i: nat
      ensures !OccursAt(s, pat, i)
    {
      if i + |pat| <= |s| {
        assert s[i..i + |pat|][0] == s[i];
        assert s[i] in s;
      }
    }
  }

  /** An occurrence survives putting text around the string it occurs in. */
  lemma OccursInContext(pre: string, s: string, post: string, pat: string, i: nat)
    requires OccursAt(s, pat, i)
    ensures OccursAt(pre + s + post, pat, |pre| + i)
  {
    var t := pre + s + post;
    assert t[|pre| + i..|pre| + i + |pat|] == s[i..i + |pat|];
  }

  /** Containment is monotone: a substring of `s` is a substring of any text around `s`. */
  lemma ContainsInContext(pre: string, s: string, post: string, pat: string)
    requires Contains(s, pat)
    ensures Contains(pre + s + post, pat)
  {
    var i: nat :| OccursAt(s, pat, i);
    OccursInContext(pre, s, post, pat, i);
  }
}
