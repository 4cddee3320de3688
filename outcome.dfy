/** The outcome classifiers: how `rebaseBranch` (main.go:124-143) reads the
    combined output and success signal of `git rebase <base>`, and how
    `diffBranch` (main.go:145-158) reads those of `git diff <base> <branch>`. */
module Outcome {
  import opened Text

  /** The two tokens whose joint presence marks a rebase that stopped on a
      conflict (main.go:131). */
  const ConflictToken: string := "CONFLICT"
  const AbortToken: string := "abort"

  /** The combined output says the rebase stopped on a conflict. */
  predicate ConflictMarked(output: string)
    ensures ConflictMarked(output) <==>
      HasSubstring(output, ConflictToken) && HasSubstring(output, AbortToken)
  {
    Contains(output, ConflictToken) && Contains(output, AbortToken)
  }

  /** What `rebaseBranch` returns: `Rebased` is `(true, nil)`, `RolledBack` is
      `(false, nil)`, and the other two are the two ways it returns an error. */
  datatype RebaseOutcome = Rebased | RolledBack | RebaseFailed | AbortFailed

  /** Classifies one rebase attempt. `abortSucceeded` is the result of the
      `git rebase --abort` that a conflict triggers; it is not consulted when
      no conflict is marked, since then no abort is issued. */
  function ClassifyRebase(output: string, success: bool, abortSucceeded: bool): (o: RebaseOutcome)
    ensures o == Rebased <==> success && !ConflictMarked(output)
    ensures o == RolledBack <==> abortSucceeded && ConflictMarked(output)
    ensures o == AbortFailed <==> !abortSucceeded && ConflictMarked(output)
    ensures o == RebaseFailed <==> !success && !ConflictMarked(output)
  {
    if ConflictMarked(output) then
      if abortSucceeded then RolledBack else AbortFailed
    else if success then Rebased
    else RebaseFailed
  }

  /** The conflict markers decide the outcome whatever the process signal was. */
  lemma MarkersOverrideSignal(output: string, success: bool, abortSucceeded: bool)
    requires ConflictMarked(output)
    ensures ClassifyRebase(output, success, abortSucceeded) == ClassifyRebase(output, !success, abortSucceeded)
    ensures ClassifyRebase(output, success, abortSucceeded) != Rebased
  {
  }

  /** The classifier is monotone in the markers: more output around a marked
      output is still classified as a conflict. */
  lemma MarkersSurviveMoreOutput(pre: string, output: string, post: string, success: bool, abortSucceeded: bool)
    requires ConflictMarked(output)
    ensures ConflictMarked(pre + output + post)
    ensures ClassifyRebase(pre + output + post, success, abortSucceeded) == ClassifyRebase(output, success, abortSucceeded)
  {
    ContainsInContext(pre, output, post, ConflictToken);
    ContainsInContext(pre, output, post, AbortToken);
  }

  /** A marker token alone, without the other, does not make a conflict. */
  lemma OneTokenIsNotAConflict()
    ensures ClassifyRebase("CONFLICT (content)\n", false, true) == RebaseFailed
    ensures ClassifyRebase("CONFLICT (content)\n", true, true) == Rebased
  {
    AbsentFirstChar("CONFLICT (content)\n", AbortToken);
  }

  /** What `diffBranch` returns: `(true, nil)`, `(false, nil)` or an error. */
  datatype DiffOutcome = HasContent | NoContent | DiffFailed

  /** Classifies one `git diff`: any output at all means the branch still
      differs from the base. */
  function ClassifyDiff(output: string, success: bool): (o: DiffOutcome)
    ensures o == DiffFailed <==> !success
    ensures o == NoContent <==> success && output == []
    ensures o == HasContent <==> success && output != []
  {
    if !success then DiffFailed
    else if |output| != 0 then HasContent
    else NoContent
  }
}
