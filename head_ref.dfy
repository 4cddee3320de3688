/** The HEAD resolver: extracting the base branch name from the text of
    `.git/HEAD` with the fixed pattern `ref: refs/heads/(?P<branch>.*)`
    (main.go:14, main.go:103-118). The regular expression is modelled by its
    effect only: an unanchored search for the literal prefix, followed by a
    greedy `.*` that stops before the first newline. */
module HeadRef {
  import opened Text

  /** The literal part of the HEAD pattern. */
  const HeadRefPrefix: string := "ref: refs/heads/"

  /** What `FindStringSubmatch` returns for the HEAD pattern: `None` for Go's
      nil slice, otherwise `[whole match, branch group]`. */
  function FindHeadRef(head: string): (m: Option<seq<string>>)
    ensures m.None? <==> !HasSubstring(head, HeadRefPrefix)
    ensures m.Some? ==> |m.value| == 2 && m.value[0] == HeadRefPrefix + m.value[1]
    ensures forall i: nat :: LeftmostAt(head, HeadRefPrefix, i) ==>
      m.Some? && OccursAt(head, m.value[0], i) &&
      m.value[1] == TakeLine(head[i + |HeadRefPrefix|..])
  {
    match IndexOf(head, HeadRefPrefix)
    case None => None
    case Some(i) =>
      var rest := head[i + |HeadRefPrefix|..];
      var name := TakeLine(rest);
      OccursThenPrefix(head, HeadRefPrefix, name, i);
      LeftmostUnique(head, HeadRefPrefix, i);
      Some([HeadRefPrefix + name, name])
  }

  /** Two leftmost occurrences are the same occurrence. */
  lemma LeftmostUnique(s: string, pat: string, i: nat)
    requires LeftmostAt(s, pat, i)
    ensures forall j: nat :: LeftmostAt(s, pat, j) ==> j == i
  {
  }

  /** Why parsing fails. */
  datatype ParseError = UnableToParseBranchName

  /** The three ways `parseRefForBranch` as written can end. */
  datatype AsWritten = Returned(branch: string) | ReturnedError(error: ParseError) | Panicked

  /** `parseRefForBranch` exactly as written (main.go:103-118): the loop over
      `SubexpNames()` (`["", "branch"]`) visits index 1 and reads `match[1]`;
      when there is no match, `match` is nil and that read panics. */
  function ParseRefForBranchAsWritten(head: string): (r: AsWritten)
    ensures r.Panicked? <==> !HasSubstring(head, HeadRefPrefix)
    ensures !r.ReturnedError?
  {
    match FindHeadRef(head)
    case None => Panicked
    case Some(m) =>
      var result := map["branch" := m[1]];
      if "branch" !in result then ReturnedError(UnableToParseBranchName)
      else Returned(result["branch"])
  }

  /** `parseRefForBranch` as evidently intended: HEAD text that does not
      hold the prefix yields the error of main.go:112-115. */
  function ParseRefForBranch(head: string): (r: Result<string, ParseError>)
    ensures r.Ok? <==> HasSubstring(head, HeadRefPrefix)
    ensures r.Ok? ==> '\n' !in r.value
    ensures forall i: nat :: LeftmostAt(head, HeadRefPrefix, i) ==>
      r == Ok(TakeLine(head[i + |HeadRefPrefix|..]))
  {
    match FindHeadRef(head)
    case None => Err(UnableToParseBranchName)
    case Some(m) => Ok(m[1])
  }

  /** Where the source does not panic, the corrected parser agrees with it. */
  lemma AsWrittenAgreesWhenMatched(head: string)
    ensures ParseRefForBranchAsWritten(head).Returned? <==> ParseRefForBranch(head).Ok?
    ensures ParseRefForBranch(head).Ok? ==>
      ParseRefForBranchAsWritten(head) == Returned(ParseRefForBranch(head).value)
  {
  }

  /** A symbolic HEAD written by git, `ref: refs/heads/<name>` and a newline,
      parses back to `<name>`, whatever follows. */
  lemma ParseRefRoundTrip(name: string, rest: string)
    requires '\n' !in name
    ensures ParseRefForBranch(HeadRefPrefix + name + "\n" + rest) == Ok(name)
  {
    var head := HeadRefPrefix + name + "\n" + rest;
    assert head[..|HeadRefPrefix|] == HeadRefPrefix;
    assert LeftmostAt(head, HeadRefPrefix, 0);
    assert head[|HeadRefPrefix|..] == name + "\n" + rest;
    TakeLineOfLine(name, rest);
  }

  /** Without a trailing newline the whole remainder is the branch name. */
  lemma ParseRefWithoutNewline(name: string)
    requires '\n' !in name
    ensures ParseRefForBranch(HeadRefPrefix + name) == Ok(name)
  {
    var head := HeadRefPrefix + name;
    assert head[..|HeadRefPrefix|] == HeadRefPrefix;
    assert LeftmostAt(head, HeadRefPrefix, 0);
    assert head[|HeadRefPrefix|..] == name;
    TakeLineOfText(name);
  }

  /** The pattern is unanchored: text before the first occurrence of the
      prefix is ignored. */
  lemma ParseRefIgnoresLeadingText(junk: string, name: string, rest: string)
    requires '\n' !in name
    requires forall j: nat :: j < |junk| ==> !OccursAt(junk + HeadRefPrefix, HeadRefPrefix, j)
    ensures ParseRefForBranch(junk + HeadRefPrefix + name + "\n" + rest) == Ok(name)
  {
    var head := junk + HeadRefPrefix + name + "\n" + rest;
    var t := junk + HeadRefPrefix;
    assert head == t + (name + "\n" + rest);
    forall j: nat | j < |junk|
      ensures !OccursAt(head, HeadRefPrefix, j)
    {
      assert !OccursAt(t, HeadRefPrefix, j);
      assert j + |HeadRefPrefix| <= |t|;
      assert head[j..j + |HeadRefPrefix|] == t[j..j + |HeadRefPrefix|];
    }
    assert head[|junk|..|junk| + |HeadRefPrefix|] == HeadRefPrefix;
    assert LeftmostAt(head, HeadRefPrefix, |junk|);
    assert head[|junk| + |HeadRefPrefix|..] == name + "\n" + rest;
    TakeLineOfLine(name, rest);
  }

  /** Surrounding whitespace is not trimmed: a carriage return before the
      newline stays part of the name. */
  lemma ParseRefKeepsCarriageReturn()
    ensures ParseRefForBranch("ref: refs/heads/main\r\n") == Ok("main\r")
  {
    assert "ref: refs/heads/main\r\n" == HeadRefPrefix + "main\r" + "\n" + "";
    ParseRefRoundTrip("main\r", "");
  }

  /** A detached HEAD (a bare commit id) makes the source panic, and the
      corrected parser reports the error instead. */
  lemma DetachedHeadPanics()
    ensures ParseRefForBranchAsWritten("0b1d5e6f\n") == Panicked
    ensures ParseRefForBranch("0b1d5e6f\n") == Err(UnableToParseBranchName)
  {
    AbsentFirstChar("0b1d5e6f\n", HeadRefPrefix);
  }
}
