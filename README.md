# git-branch-delete, modelled in Dafny

`git-branch-delete` is a small command-line tool. It is run at the root of a
git repository. It reads the branch that `.git/HEAD` names (the *base*).
Then, for every other local branch (a *topic*), it does the following:

- checks the topic out and rebases it onto the base;
- rolls the rebase back with `git rebase --abort` when the output shows a
  conflict;
- after a clean rebase, checks the base out again and diffs the topic against it;
- force-deletes the topic when the diff is empty.

Any git command that fails, other than a rebase stopped on a conflict, ends
the run with status 1. A run that gets through every topic checks the base
out once more.

The model has six modules:

- `Text` (`text.dfy`): the two text operations the tool relies on. One is the
  leftmost occurrence of a fixed string, used by Go's `strings.Contains` and
  by the unanchored regular-expression search. The other is "up to the first
  newline", which is what `.*` matches.
- `HeadRef` (`head_ref.dfy`): `parseRefForBranch` with the pattern
  `ref: refs/heads/(?P<branch>.*)`. It comes in two versions: exactly as
  written, where text without the prefix panics, and as evidently intended,
  where that text returns the "Unable to parse branch name." error.
- `Outcome` (`outcome.dfy`): the classifiers in `rebaseBranch` and
  `diffBranch`.
  - A rebase whose combined output contains both `CONFLICT` and `abort` is a
    conflict, whatever the process status.
  - Otherwise, a failed process is an error and a successful one is a clean
    rebase.
  - Any diff output means the topic still has content.
- `Git` (`git.dfy`): the abstract repository, plus the `Repository` class the
  tool drives. The repository holds its branch set, the checked-out branch and
  the log of commands issued.
  - A *gateway* supplies git's replies: the combined output and success of
    the n-th command. Git itself is not modelled.
  - Commands have two effects: a successful checkout moves HEAD, and a
    successful `branch -D` removes the branch.
- `Workflow` (`workflow.dfy`): the run of `main` as functions. Each step is a
  *trace*: the commands issued, with their replies, and the decision taken.
  The state after the step is the replay of that trace. The lemmas here state
  what the tool guarantees for every sequence of replies:
  - the base is never touched;
  - topics are taken in listing order, each at most once;
  - a topic is deleted only after a successful checkout, a clean rebase, a
    successful checkout of the base, an empty diff and a successful delete;
  - a conflicted topic is aborted and kept;
  - the run stops at the first fatal reply;
  - a completed run ends on the base.
- `Tool` (`tool.dfy`): the Go functions as imperative methods over a
  `Repository`. Each method is proved to leave the repository exactly as the
  corresponding `Workflow` trace says, and to return what that trace decides.
  `HandleListing` is the `for` loop of `main`, with a loop invariant tying it to
  `Workflow.RunLoop`.

The parts of `main` that touch the file system and the process are inputs:

- the text of `.git/HEAD`;
- the listing of `.git/refs/heads`;
- git's replies, as the gateway.

Where the tool's documented behaviour and its code differ, the model follows
the code:

- Only the pair `CONFLICT` and `abort` counts as a conflict marker
  (main.go:131). No other phrasing of a paused rebase is recognised.
- The branch name is not trimmed. A carriage return before the newline, or
  trailing blanks, stay part of the name (`HeadRef.ParseRefKeepsCarriageReturn`).
- After a fatal reply the tool exits at once (`os.Exit(1)`). It does not make
  a final checkout of the base. The final checkout (main.go:97-100) happens
  only after the whole listing has been handled.
- The panic of `parseRefForBranch` (see "Findings") is modelled as written
  by `HeadRef.ParseRefForBranchAsWritten` and `Workflow.RunToolAsWritten`.
  The rest of the run, and the `Tool` methods, use the corrected parser.
- A deletion needs the delete command itself to succeed as well. A failed
  `branch -D` is fatal (main.go:87-90).

## Model

| member | source | states |
|---|---|---|
| Text.IndexOf | main.go:131 | the result is the leftmost position where the pattern occurs; `None` exactly when it occurs nowhere |
| Text.Contains | main.go:131 | `strings.Contains` holds exactly when the pattern occurs somewhere in the text |
| Text.TakeLine | main.go:14 | `.*` takes the longest prefix of the remaining text that has no newline: it stops at the first newline or at the end of the text |
| Text.TakeLineOfLine | main.go:14 | a line with no newline, followed by a newline and anything else, is cut exactly at that newline |
| Text.TakeLineOfText | main.go:14 | text without a newline is matched whole |
| Text.ContainsInContext | main.go:131 | any text around an output that contains a token still contains it |
| HeadRef.FindHeadRef | main.go:104 | `FindStringSubmatch` matches exactly when the prefix `ref: refs/heads/` occurs. The whole match starts at the leftmost occurrence. The group is the rest of that line |
| HeadRef.ParseRefForBranchAsWritten | main.go:103-118 | as written, text without the prefix panics when `match[1]` is read. The function never returns its error, and otherwise returns the group |
| HeadRef.ParseRefForBranch | main.go:103-118 | as intended, parsing succeeds exactly when the prefix occurs. The name is the text after the leftmost prefix, up to the first newline, and never holds a newline |
| HeadRef.AsWrittenAgreesWhenMatched | main.go:103-118 | the written and the intended parser return a name for the same texts, and it is the same name |
| HeadRef.ParseRefRoundTrip | main.go:103-118 | `ref: refs/heads/<name>` followed by a newline parses back to `<name>`, whatever follows |
| HeadRef.ParseRefWithoutNewline | main.go:103-118 | without a newline, everything after the prefix is the name |
| HeadRef.ParseRefIgnoresLeadingText | main.go:103-118 | the pattern is unanchored: text before the first prefix is ignored |
| HeadRef.ParseRefKeepsCarriageReturn | main.go:103-118 | `ref: refs/heads/main\r\n` yields `main\r`: surrounding whitespace is not trimmed |
| HeadRef.DetachedHeadPanics | main.go:104-115 | a detached HEAD (a bare commit id) panics as written, and gives the parse error as intended |
| Outcome.ConflictMarked | main.go:131 | the output marks a conflict exactly when it contains both `CONFLICT` and `abort` |
| Outcome.ClassifyRebase | main.go:124-143 | clean exactly when the process succeeded and there is no marker. Rolled back or abort error exactly when marked, decided by the abort's result. Error exactly when it failed without a marker |
| Outcome.MarkersOverrideSignal | main.go:131-136 | with the markers present, the process status changes nothing, and the result is never a clean rebase |
| Outcome.MarkersSurviveMoreOutput | main.go:131 | more output around a marked output is still classified the same way |
| Outcome.OneTokenIsNotAConflict | main.go:131-142 | `CONFLICT` without `abort` is not a conflict: the process status decides |
| Outcome.ClassifyDiff | main.go:145-158 | error exactly when the diff failed. Content exactly when it succeeded with some output. No content exactly when it succeeded with none |
| Git.Apply | main.go:120-166 | one command appends its event to the log. A successful checkout moves HEAD, and a successful forced delete removes exactly that branch |
| Git.Exec | main.go:120-166 | definition: one `exec.Command` gets the gateway's reply numbered by the commands issued before it, with the effect `Apply` gives; `Git.Repository.Run` is proved equal to it |
| Git.ReplayEffect | main.go:120-166 | replaying events appends them to the log and removes exactly the branches that were deleted successfully |
| Git.ReplayConcat | main.go:51-100 | replaying two runs of events in turn is replaying their concatenation |
| Git.Repository.Run | main.go:120-166 | one git command gets the gateway's reply numbered by the commands before it, and changes the repository as `Exec` says |
| Workflow.RebaseTrace | main.go:124-143 | definition: the rebase, then the abort exactly when the output is marked, decided by `ClassifyRebase`; `Tool.RebaseBranch` is proved equal to it, and its properties are stated in `Workflow.VisitTraceSound` |
| Workflow.DiffTrace | main.go:145-158 | definition: one diff, decided by `ClassifyDiff`; `Tool.DiffBranch` is proved equal to it |
| Workflow.PruneTrace | main.go:72-91 | definition: back to the base, then the diff, then the delete only after an empty diff; `Tool.PruneRebased` is proved equal to it, and its properties are stated in `Workflow.VisitTraceSound` |
| Workflow.VisitTrace | main.go:58-94 | definition: one pass of the loop body for a topic; `Tool.CheckBranch` is proved equal to it, and its properties are stated in `Workflow.VisitTraceSound` and `Workflow.VisitRemoves` |
| Workflow.LoopStep | main.go:52-94 | definition: one iteration, skipping the base and doing nothing after a failure; `Tool.HandleListed` is proved equal to it |
| Workflow.RunLoop | main.go:51-95 | definition: the loop over the listing; `Tool.HandleListing` is proved equal to it, and its properties are stated in `Workflow.RunLoopReplay`, `Workflow.RunLoopOrder`, `Workflow.RunLoopVisitsSound` and `Tool.FailureIsFinal` |
| Workflow.RunTool | main.go:36-100 | definition: `main` from the HEAD text and the listing, with the corrected parser; `Tool.RebaseAndPrune` is proved equal to it, and its properties are stated in `Workflow.RunHaltsOnFirstFatal`, `Workflow.RunToolSound` and `Workflow.RunToolAsWritten` |
| Workflow.RunParsed | main.go:36-100 | definition: `main` after the parse of HEAD, given its result; its properties are stated in `Workflow.ParsedExitFacts` |
| Workflow.Topics | main.go:51-56 | the topics are exactly the listed names other than the base |
| Workflow.VisitTraceSound | main.go:58-94 | for every sequence of replies, one pass of the loop body does the following. It issues a prefix of checkout, rebase, checkout base, diff, delete, or else checkout, rebase, abort. It deletes exactly when all five succeeded with an empty diff. It keeps for content exactly on a non-empty diff. It keeps as conflicted exactly after an aborted conflict. A rebase whose output carries the conflict markers is followed by the abort and by nothing else, and an abort follows only such a rebase. The forced delete is issued only after the diff succeeded with no output. It halts exactly when its last reply was fatal, and no earlier reply was fatal. A halt reports the failure of the command issued last: a checkout (of the topic or of the base, naming that branch), the rebase, the abort, the diff or the delete |
| Workflow.VisitRemoves | main.go:71-94 | a branch pass removes its own branch exactly when it deleted it, and no other branch |
| Workflow.RunLoopReplay | main.go:51-95 | the loop's repository is the replay of its passes' events, and the gateway answered those events in order |
| Workflow.RunLoopOrder | main.go:51-95 | the loop visits topics in listing order, all of them unless it halted. Only the last pass may have halted, and the loop's failure is that pass's failure |
| Workflow.RunLoopVisitsSound | main.go:51-95 | every pass the loop makes is sound, as `VisitTraceSound` states; in particular every conflicted rebase was aborted and nothing else was done to that branch |
| Workflow.RemovedByVisits | main.go:71-94 | sound passes remove exactly the branches they deleted |
| Workflow.TopicsDistinct | main.go:51 | names listed once each stay single among the topics |
| Workflow.DeletedBranches | main.go:86-90 | a branch counts as deleted exactly when some pass for it ended in `Deleted` |
| Workflow.RunToolAsWritten | main.go:36-118 | with the parser as written, HEAD text without the prefix panics before any git command, and the exit on the parse error is never taken; any other HEAD text gives exactly the run of `RunTool` |
| Workflow.RunHaltsOnFirstFatal | main.go:36-100 | with the corrected parser, a run completes exactly when HEAD parses and no reply was fatal. Exiting on the parse error happens exactly when HEAD does not parse, and leaves the repository untouched. Any other exit follows a fatal reply that is the last command issued, with no fatal reply before it. All replies come from the gateway in order |
| Workflow.ParsedExitFacts | main.go:36-100 | the same exit guarantees for any result of the HEAD parse |
| Workflow.RunToolSound | main.go:51-100 | a run with a parsable HEAD has these properties. It never visits the base. It visits topics in listing order, each once when the listing names it once. Every pass is sound, so each conflicted topic was aborted and kept. Exactly the deleted branches are gone, and the base keeps its presence. A completed run visited every topic and has the base checked out |
| Tool.CheckoutBranch | main.go:120-122 | issues one checkout. It reports success exactly when the reply succeeded |
| Tool.RebaseBranch | main.go:124-143 | issues the rebase, and the abort exactly when the markers are present. It changes the repository and returns as `RebaseTrace` says |
| Tool.DiffBranch | main.go:145-158 | issues one diff. It changes the repository and returns as `DiffTrace` says |
| Tool.DeleteBranch | main.go:160-166 | issues one forced delete. It reports success exactly when the reply succeeded |
| Tool.PruneRebased | main.go:72-91 | after a clean rebase: back to the base, then the diff, then the delete of an empty topic. It follows `PruneTrace` |
| Tool.CheckBranch | main.go:58-94 | one pass of the loop body for a topic. It changes the repository and decides as `VisitTrace` says |
| Tool.HandleListed | main.go:52-94 | one iteration on a listed name: skip the base, otherwise check the branch. It takes the loop one `LoopStep` further |
| Tool.FailureIsFinal | main.go:60-90 | once the loop has failed, later names in the listing change nothing, as `os.Exit` implies |
| Tool.RunLoopHalts | main.go:60-90 | a failure on a listed name is the loop's final state |
| Tool.HandleListing | main.go:51-95 | the `for` loop leaves the repository and the failure exactly as `RunLoop` says. It stops at the first failure |
| Tool.RebaseAndPrune | main.go:36-100 | `main` from the parse of HEAD on, with the corrected parser. It ends in the state and with the exit that `RunTool` says |

## Left out

- `os.Getwd`, opening `.git/HEAD` and reading it into a 1024-byte buffer (main.go:17-34) are file-system I/O. The HEAD text is an input. The NUL padding of the buffer is not modelled: a HEAD file without a final newline would have NUL bytes in the branch name in the real tool.
- `ioutil.ReadDir` of `.git/refs/heads` (main.go:44-48) is file-system I/O. The listing is an input. Only top-level names are listed, so branches under hierarchical or packed refs are not covered. Its error exit is not modelled.
- Every `exec.Command` is a foreign process call (main.go:121, 125, 132, 146, 161). Each is a `Command` answered by the gateway. What git does is not modelled beyond the two effects in `Git.Apply`.
- `fmt` printing is output only, and is left out. `os.Exit` becomes the `Exit` value of a run, where `Exited` carries the failure. No code runs after it.
- The regular-expression engine and the `SubexpNames` map plumbing (main.go:105-110) are replaced by their effect for this one pattern. Go's treatment of invalid UTF-8 is not modelled: text is a sequence of characters.
- Workflow.RunHaltsOnFirstFatal: runs `main` with the corrected parser, so for HEAD text without `ref: refs/heads/` it states the exit of main.go:37-40 (status 1, the parse error printed). As written, `main` panics at main.go:108 instead (status 2, a stack trace) before issuing any git command, which `Workflow.RunToolAsWritten` states.
- Tool.RebaseAndPrune: uses the corrected parser for the same reason, and returns `Exited(HeadError)` where the code as written panics. By design, the imperative methods follow the corrected behaviour that the rest of the model uses. The panicking run is stated only by the function `Workflow.RunToolAsWritten`.
- Workflow.RunToolSound: does not state that a second run makes no further deletions. That depends on what git's diff reports after a deletion, which the gateway does not model.
- Other conflict phrasings, such as "all conflicts fixed" or a paused-rebase notice, are not recognised, because the code checks only `CONFLICT` together with `abort`.
- A final checkout of the base after a fatal error is not there, because the code exits at once.

## Findings

| source | as written | input that shows it | evidently intended | confidence | as-written member | corrected member |
|---|---|---|---|---|---|---|
| main.go:104-115 | `match` is nil when the HEAD text has no `ref: refs/heads/`, and `match[1]` at main.go:108 panics. The error at main.go:112-115 can never be returned | a detached HEAD, `0b1d5e6f\n` | return the error "Unable to parse branch name." | not executed | HeadRef.ParseRefForBranchAsWritten, HeadRef.DetachedHeadPanics, Workflow.RunToolAsWritten | HeadRef.ParseRefForBranch |
