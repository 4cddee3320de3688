/** The rebase-and-prune workflow of `main` (main.go:36-100) as functions of
    the abstract repository and the gateway's replies, and what it guarantees:
    the base branch is never a topic, a branch is deleted only after a clean
    rebase and an empty diff, any fatal reply halts the run at once, and a
    completed run leaves the base branch checked out. Each step is given by
    its trace: the commands it issues with the replies they get, and what it
    decides; its effect on the repository is the replay of that trace. */
module Workflow {
  import opened Text
  import opened HeadRef
  import opened Outcome
  import opened Git

  /** Why a run exits with status 1. */
  datatype Failure =
    | HeadError                      // parseRefForBranch failed (main.go:36-40)
    | CheckoutError(branch: string)  // main.go:60-63, 72-75, 97-100
    | RebaseError(branch: string)    // rebase failed without conflict markers (main.go:138-140)
    | AbortError(branch: string)     // the abort after a conflict failed (main.go:132-134)
    | DiffError(branch: string)      // main.go:78-81
    | DeleteError(branch: string)    // main.go:87-90

  /** How the handling of one topic branch ended. */
  datatype Verdict =
    | Deleted           // rebased cleanly, no diff left, deleted
    | KeptWithContent   // rebased cleanly, still differs from the base
    | KeptConflicted    // rebase stopped on a conflict and was aborted
    | Halted(failure: Failure)

  /** The record of one pass of the loop body of main.go:52-94. */
  datatype Visit = Visit(branch: string, events: seq<Event>, verdict: Verdict)

  /** The commands a step issued, with their replies, and what it decided. */
  datatype Trace<T> = Trace(events: seq<Event>, value: T)

  /** `rebaseBranch` (main.go:124-143), its first command numbered `k`: the
      rebase, and the abort that conflict markers trigger. */
  function RebaseTrace(g: Gateway, k: nat, base: string): Trace<RebaseOutcome>
  {
    var reply := g(k);
    var rebase := Event(Rebase(base), reply);
    if ConflictMarked(reply.output) then
      var abort := g(k + 1);
      Trace([rebase, Event(AbortRebase, abort)], ClassifyRebase(reply.output, reply.success, abort.success))
    else
      Trace([rebase], ClassifyRebase(reply.output, reply.success, true))
  }

  /** `diffBranch` (main.go:145-158), its command numbered `k`. */
  function DiffTrace(g: Gateway, k: nat, base: string, branch: string): Trace<DiffOutcome>
  {
    var reply := g(k);
    Trace([Event(Diff(base, branch), reply)], ClassifyDiff(reply.output, reply.success))
  }

  /** The branch after a clean rebase (main.go:72-91), its first command
      numbered `k`: back to the base, the diff, and the delete when the diff
      is empty. */
  function PruneTrace(g: Gateway, k: nat, base: string, branch: string): Trace<Verdict>
  {
    var onBase := [Event(Checkout(base), g(k))];
    if !g(k).success then Trace(onBase, Halted(CheckoutError(base)))
    else
      var d := DiffTrace(g, k + 1, base, branch);
      var diffed := onBase + d.events;
      match d.value
      case DiffFailed => Trace(diffed, Halted(DiffError(branch)))
      case HasContent => Trace(diffed, KeptWithContent)
      case NoContent =>
        var del := g(k + 2);
        Trace(diffed + [Event(ForceDelete(branch), del)],
              if del.success then Deleted else Halted(DeleteError(branch)))
  }

  /** One pass of the loop body (main.go:58-94) for a topic branch, its first
      command numbered `k`. */
  function VisitTrace(g: Gateway, k: nat, base: string, branch: string): Trace<Verdict>
  {
    var checkout := [Event(Checkout(branch), g(k))];
    if !g(k).success then Trace(checkout, Halted(CheckoutError(branch)))
    else
      var rb := RebaseTrace(g, k + 1, base);
      var rebased := checkout + rb.events;
      match rb.value
      case RebaseFailed => Trace(rebased, Halted(RebaseError(branch)))
      case AbortFailed => Trace(rebased, Halted(AbortError(branch)))
      case RolledBack => Trace(rebased, KeptConflicted)
      case Rebased =>
        var p := PruneTrace(g, k + |rebased|, base, branch);
        Trace(rebased + p.events, p.value)
  }

  /** The state of the loop of main.go:51-95 after some prefix of the listing. */
  datatype LoopState = LoopState(repo: Repo, visits: seq<Visit>, failure: Option<Failure>)

  /** One iteration of the loop of main.go:51-95 on the name `branch`: the
      base branch is skipped, and after a failure nothing more happens (the
      `os.Exit(1)` calls). */
  function LoopStep(g: Gateway, base: string, s: LoopState, branch: string): LoopState
  {
    if s.failure.Some? || branch == base then s
    else
      var t := VisitTrace(g, |s.repo.log|, base, branch);
      LoopState(Replay(s.repo, t.events), s.visits + [Visit(branch, t.events, t.value)],
                if t.value.Halted? then Some(t.value.failure) else None)
  }

  /** The loop of main.go:51-95 over the listing `files`. */
  function RunLoop(r: Repo, g: Gateway, base: string, files: seq<string>): LoopState
    decreases |files|
  {
    if files == [] then LoopState(r, [], None)
    else LoopStep(g, base, RunLoop(r, g, base, files[..|files| - 1]), files[|files| - 1])
  }

  /** How a run ends: exit status 0, or status 1 with the failure printed.
      `Exited(HeadError)` is the exit of main.go:37-40, which the corrected
      parser reaches; as written the parse panics instead (`RunToolAsWritten`). */
  datatype Exit = Completed | Exited(failure: Failure)

  /** A whole run. */
  datatype Run = Run(repo: Repo, visits: seq<Visit>, exit: Exit)

  /** `main` from the parse of HEAD on (main.go:36-100): the HEAD text and
      the listing of `refs/heads` are inputs. */
  function RunTool(r: Repo, g: Gateway, headText: string, files: seq<string>): Run
  {
    RunParsed(r, g, ParseRefForBranch(headText), files)
  }

  /** How `main` as written ends: the parse of HEAD panics, before any git
      command is issued, or the run goes on. */
  datatype Ending = Panic | Ran(run: Run)

  /** `main` with `parseRefForBranch` as written (main.go:36-118): HEAD text
      without the prefix panics at main.go:108, and the exit of main.go:37-40
      is never taken; every other HEAD text gives the run `RunTool` describes. */
  function RunToolAsWritten(r: Repo, g: Gateway, headText: string, files: seq<string>): (e: Ending)
    ensures e.Panic? <==> !HasSubstring(headText, HeadRefPrefix)
    ensures e.Ran? ==> e.run == RunTool(r, g, headText, files) && e.run.exit != Exited(HeadError)
  {
    match ParseRefForBranchAsWritten(headText)
    case Panicked => Panic
    case ReturnedError(_) => Ran(Run(r, [], Exited(HeadError)))
    case Returned(base) =>
      RunLoopOrder(r, g, base, files);
      Ran(RunParsed(r, g, Ok(base), files))
  }

  /** `main` after the parse of HEAD (main.go:36-100), given its result. */
  function RunParsed(r: Repo, g: Gateway, parsed: Result<string, ParseError>, files: seq<string>): Run
  {
    match parsed
    case Err(_) => Run(r, [], Exited(HeadError))
    case Ok(base) =>
      var s := RunLoop(r, g, base, files);
      if s.failure.Some? then Run(s.repo, s.visits, Exited(s.failure.value))
      else
        var reply := g(|s.repo.log|);
        Run(Apply(s.repo, Checkout(base), reply), s.visits,
            if reply.success then Completed else Exited(CheckoutError(base)))
  }

  // ---------------------------------------------------------------------------
  // Vocabulary for the guarantees

  /** `e` issued `c` and git reported success. */
  predicate Succeeded(e: Event, c: Command)
  {
    e.command == c && e.reply.success
  }

  /** `e` is a rebase onto `base` that finished without conflict markers. */
  predicate CleanRebase(e: Event, base: string)
  {
    e.command == Rebase(base) && e.reply.success && !ConflictMarked(e.reply.output)
  }

  /** `e` is a rebase onto `base` that stopped on a conflict. */
  predicate ConflictedRebase(e: Event, base: string)
  {
    e.command == Rebase(base) && ConflictMarked(e.reply.output)
  }

  /** A reply that makes the tool exit: any failure except that of a rebase
      whose output shows conflict markers. */
  predicate Fatal(e: Event)
  {
    !e.reply.success && !(e.command.Rebase? && ConflictMarked(e.reply.output))
  }

  predicate NoFatal(es: seq<Event>)
  {
    forall i :: 0 <= i < |es| ==> !Fatal(es[i])
  }

  /** The commands of a visit that rebases cleanly and deletes. */
  function CleanPlan(base: string, branch: string): seq<Command>
  {
    [Checkout(branch), Rebase(base), Checkout(base), Diff(base, branch), ForceDelete(branch)]
  }

  /** The commands of a visit whose rebase stops on a conflict. */
  function ConflictPlan(base: string, branch: string): seq<Command>
  {
    [Checkout(branch), Rebase(base), AbortRebase]
  }

  function Commands(es: seq<Event>): (cs: seq<Command>)
    ensures |cs| == |es| && forall i :: 0 <= i < |es| ==> cs[i] == es[i].command
  {
    seq(|es|, i requires 0 <= i < |es| => es[i].command)
  }

  /** The visit issued a prefix of one of the two plans, in order. */
  predicate FollowsPlan(base: string, v: Visit)
  {
    0 < |v.events| &&
    (Commands(v.events) <= CleanPlan(base, v.branch) || Commands(v.events) == ConflictPlan(base, v.branch))
  }

  /** Deleting needs, in this order: the branch checked out, a clean rebase,
      the base checked out, an empty diff, then the delete (main.go:71-91). */
  predicate DeletionJustified(base: string, v: Visit)
  {
    var es, b := v.events, v.branch;
    |es| == 5 && Succeeded(es[0], Checkout(b)) && CleanRebase(es[1], base) &&
    Succeeded(es[2], Checkout(base)) && Succeeded(es[3], Diff(base, b)) && es[3].reply.output == [] &&
    Succeeded(es[4], ForceDelete(b))
  }

  /** A clean rebase whose diff against the base is not empty (main.go:83-84). */
  predicate KeptForContent(base: string, v: Visit)
  {
    var es, b := v.events, v.branch;
    |es| == 4 && Succeeded(es[0], Checkout(b)) && CleanRebase(es[1], base) &&
    Succeeded(es[2], Checkout(base)) && Succeeded(es[3], Diff(base, b)) && es[3].reply.output != []
  }

  /** A rebase stopped on a conflict and successfully aborted (main.go:131-135). */
  predicate RolledBackAfterConflict(base: string, v: Visit)
  {
    var es, b := v.events, v.branch;
    |es| == 3 && Succeeded(es[0], Checkout(b)) && ConflictedRebase(es[1], base) && Succeeded(es[2], AbortRebase)
  }

  /** Only the last reply of a visit may be fatal, and it is exactly when the
      visit halted. */
  predicate HaltsOnFatal(v: Visit)
  {
    0 < |v.events| &&
    NoFatal(v.events[..|v.events| - 1]) &&
    (v.verdict.Halted? <==> Fatal(v.events[|v.events| - 1]))
  }

  /** The failure a visit reports when the command `c` it issued last failed. */
  function FailureOf(c: Command, branch: string): Failure
  {
    match c
    case Checkout(b) => CheckoutError(b)
    case Rebase(_) => RebaseError(branch)
    case AbortRebase => AbortError(branch)
    case Diff(_, _) => DiffError(branch)
    case ForceDelete(_) => DeleteError(branch)
  }

  /** A rebase that stopped on a conflict is followed by the abort and by
      nothing else, and the abort follows nothing but such a rebase
      (main.go:131-136). */
  predicate AbortsExactlyOnConflict(base: string, v: Visit)
  {
    (1 < |v.events| && ConflictedRebase(v.events[1], base)) <==>
    Commands(v.events) == ConflictPlan(base, v.branch)
  }

  /** The forced delete, the fifth command of a visit, is issued only after
      the diff succeeded with no output (main.go:83-90). */
  predicate DeletesOnlyAfterEmptyDiff(base: string, v: Visit)
  {
    4 < |v.events| ==> Succeeded(v.events[3], Diff(base, v.branch)) && v.events[3].reply.output == []
  }

  /** A halted visit reports the failure of the command it issued last. */
  predicate ReportsLastFailure(v: Visit)
  {
    0 < |v.events| &&
    (v.verdict.Halted? ==> v.verdict.failure == FailureOf(v.events[|v.events| - 1].command, v.branch))
  }

  /** Everything one visit guarantees. */
  predicate VisitSound(base: string, v: Visit)
  {
    FollowsPlan(base, v) &&
    AbortsExactlyOnConflict(base, v) &&
    DeletesOnlyAfterEmptyDiff(base, v) &&
    ReportsLastFailure(v) &&
    (v.verdict == Deleted <==> DeletionJustified(base, v)) &&
    (v.verdict == KeptWithContent <==> KeptForContent(base, v)) &&
    (v.verdict == KeptConflicted <==> RolledBackAfterConflict(base, v)) &&
    HaltsOnFatal(v)
  }

  /** The topic branches of a listing, in listing order: every name but the base. */
  function Topics(base: string, files: seq<string>): (ts: seq<string>)
    ensures forall x :: x in ts <==> x in files && x != base
    decreases |files|
  {
    if files == [] then []
    else
      var init := files[..|files| - 1];
      assert files == init + [files[|files| - 1]];
      Topics(base, init) + (if files[|files| - 1] == base then [] else [files[|files| - 1]])
  }

  function Branches(vs: seq<Visit>): (bs: seq<string>)
    ensures |bs| == |vs| && forall i :: 0 <= i < |vs| ==> bs[i] == vs[i].branch
  {
    seq(|vs|, i requires 0 <= i < |vs| => vs[i].branch)
  }

  /** All events of the visits, in order. */
  function Flatten(vs: seq<Visit>): seq<Event>
    decreases |vs|
  {
    if vs == [] then [] else Flatten(vs[..|vs| - 1]) + vs[|vs| - 1].events
  }

  /** The branches the visits deleted. */
  function DeletedBranches(vs: seq<Visit>): (d: set<string>)
    ensures forall b :: b in d <==> exists i :: 0 <= i < |vs| && vs[i].branch == b && vs[i].verdict == Deleted
    decreases |vs|
  {
    if vs == [] then {}
    else DeletedBranches(vs[..|vs| - 1]) + (if vs[|vs| - 1].verdict == Deleted then {vs[|vs| - 1].branch} else {})
  }

  predicate Distinct(s: seq<string>)
  {
    forall i, j :: 0 <= i < j < |s| ==> s[i] != s[j]
  }

  // ---------------------------------------------------------------------------
  // One visit

  /** The replies of `es` are the gateway's answers to commands number `k`, `k + 1`, …. */
  predicate Answered(g: Gateway, k: nat, es: seq<Event>)
  {
    forall j :: 0 <= j < |es| ==> es[j].reply == g(k + j)
  }

  /** The commands of one pass of the loop body get the gateway's replies in order. */
  lemma VisitTraceAnswered(g: Gateway, k: nat, base: string, branch: string)
    ensures Answered(g, k, VisitTrace(g, k, base, branch).events)
  {
    VisitTraceSound(g, k, base, branch);
  }

  /** One pass of the loop body, for every sequence of replies: it answers
      its commands in order and is sound. */
  lemma VisitTraceSound(g: Gateway, k: nat, base: string, branch: string)
    ensures var t := VisitTrace(g, k, base, branch);
      Answered(g, k, t.events) && VisitSound(base, Visit(branch, t.events, t.value))
  {
    if !g(k).success {
      VisitCheckoutFails(g, k, base, branch);
    } else if ConflictMarked(g(k + 1).output) {
      VisitConflicted(g, k, base, branch);
    } else if !g(k + 1).success {
      VisitRebaseFails(g, k, base, branch);
    } else {
      VisitRebased(g, k, base, branch);
    }
  }

  lemma VisitCheckoutFails(g: Gateway, k: nat, base: string, branch: string)
    requires !g(k).success
    ensures var t := VisitTrace(g, k, base, branch);
      Answered(g, k, t.events) && VisitSound(base, Visit(branch, t.events, t.value))
  {
    var t := VisitTrace(g, k, base, branch);
    assert t.events == [Event(Checkout(branch), g(k))];
    AnsweredUpToFive(g, k, t.events);
    SoundOne(base, Visit(branch, t.events, t.value));
  }

  lemma VisitConflicted(g: Gateway, k: nat, base: string, branch: string)
    requires g(k).success && ConflictMarked(g(k + 1).output)
    ensures var t := VisitTrace(g, k, base, branch);
      Answered(g, k, t.events) && VisitSound(base, Visit(branch, t.events, t.value))
  {
    var t := VisitTrace(g, k, base, branch);
    assert t.events == [Event(Checkout(branch), g(k)), Event(Rebase(base), g(k + 1)), Event(AbortRebase, g(k + 2))];
    AnsweredUpToFive(g, k, t.events);
    SoundConflict(base, Visit(branch, t.events, t.value));
  }

  lemma VisitRebaseFails(g: Gateway, k: nat, base: string, branch: string)
    requires g(k).success && !ConflictMarked(g(k + 1).output) && !g(k + 1).success
    ensures var t := VisitTrace(g, k, base, branch);
      Answered(g, k, t.events) && VisitSound(base, Visit(branch, t.events, t.value))
  {
    var t := VisitTrace(g, k, base, branch);
    assert t.events == [Event(Checkout(branch), g(k)), Event(Rebase(base), g(k + 1))];
    AnsweredUpToFive(g, k, t.events);
    SoundTwo(base, Visit(branch, t.events, t.value));
  }

  lemma VisitRebased(g: Gateway, k: nat, base: string, branch: string)
    requires g(k).success && !ConflictMarked(g(k + 1).output) && g(k + 1).success
    ensures var t := VisitTrace(g, k, base, branch);
      Answered(g, k, t.events) && VisitSound(base, Visit(branch, t.events, t.value))
  {
    var t := VisitTrace(g, k, base, branch);
    var p := PruneTrace(g, k + 2, base, branch);
    assert t == Trace([Event(Checkout(branch), g(k)), Event(Rebase(base), g(k + 1))] + p.events, p.value);
    if !g(k + 2).success {
      VisitBackFails(g, k, base, branch, t);
    } else if !g(k + 3).success || g(k + 3).output != [] {
      VisitDiffed(g, k, base, branch, t);
    } else {
      VisitDeletes(g, k, base, branch, t);
    }
  }

  lemma VisitBackFails(g: Gateway, k: nat, base: string, branch: string, t: Trace<Verdict>)
    requires g(k).success && !ConflictMarked(g(k + 1).output) && g(k + 1).success && !g(k + 2).success
    requires var p := PruneTrace(g, k + 2, base, branch);
      t == Trace([Event(Checkout(branch), g(k)), Event(Rebase(base), g(k + 1))] + p.events, p.value)
    ensures Answered(g, k, t.events) && VisitSound(base, Visit(branch, t.events, t.value))
  {
    var p := PruneTrace(g, k + 2, base, branch);
    assert p.events == [Event(Checkout(base), g(k + 2))];
    assert t.events == [Event(Checkout(branch), g(k)), Event(Rebase(base), g(k + 1)), Event(Checkout(base), g(k + 2))];
    AnsweredUpToFive(g, k, t.events);
    SoundThree(base, Visit(branch, t.events, t.value));
  }

  lemma VisitDiffed(g: Gateway, k: nat, base: string, branch: string, t: Trace<Verdict>)
    requires g(k).success && !ConflictMarked(g(k + 1).output) && g(k + 1).success && g(k + 2).success
    requires !g(k + 3).success || g(k + 3).output != []
    requires var p := PruneTrace(g, k + 2, base, branch);
      t == Trace([Event(Checkout(branch), g(k)), Event(Rebase(base), g(k + 1))] + p.events, p.value)
    ensures Answered(g, k, t.events) && VisitSound(base, Visit(branch, t.events, t.value))
  {
    var p := PruneTrace(g, k + 2, base, branch);
    var e2, e3 := Event(Checkout(base), g(k + 2)), Event(Diff(base, branch), g(k + 3));
    assert p.events == [e2, e3];
    assert t.events == [Event(Checkout(branch), g(k)), Event(Rebase(base), g(k + 1)), e2, e3];
    AnsweredUpToFive(g, k, t.events);
    SoundFour(base, Visit(branch, t.events, t.value));
  }

  lemma VisitDeletes(g: Gateway, k: nat, base: string, branch: string, t: Trace<Verdict>)
    requires g(k).success && !ConflictMarked(g(k + 1).output) && g(k + 1).success && g(k + 2).success
    requires g(k + 3).success && g(k + 3).output == []
    requires var p := PruneTrace(g, k + 2, base, branch);
      t == Trace([Event(Checkout(branch), g(k)), Event(Rebase(base), g(k + 1))] + p.events, p.value)
    ensures Answered(g, k, t.events) && VisitSound(base, Visit(branch, t.events, t.value))
  {
    var p := PruneTrace(g, k + 2, base, branch);
    var e2, e3 := Event(Checkout(base), g(k + 2)), Event(Diff(base, branch), g(k + 3));
    var e4 := Event(ForceDelete(branch), g(k + 4));
    var verdict := if g(k + 4).success then Deleted else Halted(DeleteError(branch));
    assert p == Trace([e2, e3, e4], verdict);
    var es := [Event(Checkout(branch), g(k)), Event(Rebase(base), g(k + 1)), e2, e3, e4];
    assert t == Trace(es, verdict);
    AnsweredUpToFive(g, k, es);
    SoundFive(base, Visit(branch, es, verdict));
  }

  /** A visit's few events, each answered by the gateway in turn. */
  lemma AnsweredUpToFive(g: Gateway, k: nat, es: seq<Event>)
    requires |es| <= 5
    requires 0 < |es| ==> es[0].reply == g(k)
    requires 1 < |es| ==> es[1].reply == g(k + 1)
    requires 2 < |es| ==> es[2].reply == g(k + 2)
    requires 3 < |es| ==> es[3].reply == g(k + 3)
    requires 4 < |es| ==> es[4].reply == g(k + 4)
    ensures Answered(g, k, es)
  {
  }

  lemma SoundOne(base: string, v: Visit)
    requires |v.events| == 1 && v.events[0].command == Checkout(v.branch)
    requires !v.events[0].reply.success && v.verdict == Halted(CheckoutError(v.branch))
    ensures VisitSound(base, v)
  {
    assert Commands(v.events) == CleanPlan(base, v.branch)[..1];
  }

  lemma SoundTwo(base: string, v: Visit)
    requires |v.events| == 2 && Succeeded(v.events[0], Checkout(v.branch))
    requires v.events[1].command == Rebase(base) && !v.events[1].reply.success
    requires !ConflictMarked(v.events[1].reply.output) && v.verdict == Halted(RebaseError(v.branch))
    ensures VisitSound(base, v)
  {
    assert Commands(v.events) == CleanPlan(base, v.branch)[..2];
  }

  lemma SoundConflict(base: string, v: Visit)
    requires |v.events| == 3 && Succeeded(v.events[0], Checkout(v.branch))
    requires ConflictedRebase(v.events[1], base) && v.events[2].command == AbortRebase
    requires v.verdict == if v.events[2].reply.success then KeptConflicted else Halted(AbortError(v.branch))
    ensures VisitSound(base, v)
  {
    assert Commands(v.events) == ConflictPlan(base, v.branch);
  }

  lemma SoundThree(base: string, v: Visit)
    requires |v.events| == 3 && Succeeded(v.events[0], Checkout(v.branch))
    requires CleanRebase(v.events[1], base)
    requires v.events[2].command == Checkout(base) && !v.events[2].reply.success
    requires v.verdict == Halted(CheckoutError(base))
    ensures VisitSound(base, v)
  {
    assert Commands(v.events) == CleanPlan(base, v.branch)[..3];
  }

  lemma SoundFour(base: string, v: Visit)
    requires |v.events| == 4 && Succeeded(v.events[0], Checkout(v.branch))
    requires CleanRebase(v.events[1], base) && Succeeded(v.events[2], Checkout(base))
    requires v.events[3].command == Diff(base, v.branch)
    requires !v.events[3].reply.success || v.events[3].reply.output != []
    requires v.verdict == if v.events[3].reply.success then KeptWithContent else Halted(DiffError(v.branch))
    ensures VisitSound(base, v)
  {
    assert Commands(v.events) == CleanPlan(base, v.branch)[..4];
  }

  lemma SoundFive(base: string, v: Visit)
    requires |v.events| == 5 && Succeeded(v.events[0], Checkout(v.branch))
    requires CleanRebase(v.events[1], base) && Succeeded(v.events[2], Checkout(base))
    requires Succeeded(v.events[3], Diff(base, v.branch)) && v.events[3].reply.output == []
    requires v.events[4].command == ForceDelete(v.branch)
    requires v.verdict == if v.events[4].reply.success then Deleted else Halted(DeleteError(v.branch))
    ensures VisitSound(base, v)
  {
    assert Commands(v.events) == CleanPlan(base, v.branch);
  }


  lemma {:induction false} RemovedNoDelete(es: seq<Event>)
    requires forall i :: 0 <= i < |es| ==> !es[i].command.ForceDelete?
    ensures Removed(es) == {}
    decreases |es|
  {
    if es != [] {
      RemovedNoDelete(es[..|es| - 1]);
    }
  }

  /** A sound visit removes its branch exactly when it deleted it, and no
      other branch. */
  lemma VisitRemoves(base: string, v: Visit)
    requires VisitSound(base, v)
    ensures Removed(v.events) == if v.verdict == Deleted then {v.branch} else {}
  {
    var es := v.events;
    if |es| == 5 {
      assert Commands(es) == CleanPlan(base, v.branch);
      assert es[4].command == ForceDelete(v.branch);
      RemovedNoDelete(es[..4]);
      assert es[..|es| - 1] == es[..4];
    } else {
      forall i | 0 <= i < |es|
        ensures !es[i].command.ForceDelete?
      {
        assert Commands(es)[i] == es[i].command;
      }
      RemovedNoDelete(es);
    }
  }

  // ---------------------------------------------------------------------------
  // The loop

  predicate AllSound(base: string, vs: seq<Visit>)
  {
    forall i :: 0 <= i < |vs| ==> VisitSound(base, vs[i])
  }

  predicate AllHaltOnFatal(vs: seq<Visit>)
  {
    forall i :: 0 <= i < |vs| ==> HaltsOnFatal(vs[i])
  }

  /** What the loop guarantees about its visits: the topics in listing order,
      all of them unless it halted, and only the last visit may have halted. */
  predicate LoopOrderFacts(base: string, files: seq<string>, s: LoopState)
  {
    Branches(s.visits) <= Topics(base, files) &&
    (s.failure.None? ==> Branches(s.visits) == Topics(base, files)) &&
    (forall i :: 0 <= i < |s.visits| - 1 ==> !s.visits[i].verdict.Halted?) &&
    (s.failure.Some? <==> 0 < |s.visits| && s.visits[|s.visits| - 1].verdict.Halted?) &&
    (s.failure.Some? ==> s.failure == Some(s.visits[|s.visits| - 1].verdict.failure)) &&
    s.failure != Some(HeadError)
  }

  /** Answers continue across two runs of events, the second starting at `m`. */
  lemma AnsweredConcat(g: Gateway, k: nat, a: seq<Event>, m: nat, b: seq<Event>)
    requires m == k + |a| && Answered(g, k, a) && Answered(g, m, b)
    ensures Answered(g, k, a + b)
  {
    forall j | 0 <= j < |a + b|
      ensures (a + b)[j].reply == g(k + j)
    {
      if j >= |a| {
        assert (a + b)[j] == b[j - |a|];
      }
    }
  }

  lemma FlattenSnoc(vs: seq<Visit>, v: Visit)
    ensures Flatten(vs + [v]) == Flatten(vs) + v.events
  {
    assert (vs + [v])[..|vs|] == vs;
  }

  /** One iteration keeps the loop's repository the replay of its visits'
      events. */
  lemma LoopStepReplay(r: Repo, g: Gateway, base: string, s: LoopState, branch: string)
    requires s.repo == Replay(r, Flatten(s.visits))
    ensures var n := LoopStep(g, base, s, branch);
      n.repo == Replay(r, Flatten(n.visits))
  {
    if s.failure.None? && branch != base {
      var t := VisitTrace(g, |s.repo.log|, base, branch);
      var v := Visit(branch, t.events, t.value);
      var n := LoopStep(g, base, s, branch);
      assert n.repo == Replay(s.repo, t.events) && n.visits == s.visits + [v];
      FlattenSnoc(s.visits, v);
      ReplayConcat(r, Flatten(s.visits), v.events);
    }
  }

  /** One iteration keeps the loop's events answered in order by the gateway. */
  lemma LoopStepAnswered(r: Repo, g: Gateway, base: string, s: LoopState, branch: string)
    requires s.repo.log == r.log + Flatten(s.visits) && Answered(g, |r.log|, Flatten(s.visits))
    ensures var n := LoopStep(g, base, s, branch);
      Answered(g, |r.log|, Flatten(n.visits))
  {
    if s.failure.None? && branch != base {
      var t := VisitTrace(g, |s.repo.log|, base, branch);
      var v := Visit(branch, t.events, t.value);
      var n := LoopStep(g, base, s, branch);
      assert n.visits == s.visits + [v];
      FlattenSnoc(s.visits, v);
      VisitTraceAnswered(g, |s.repo.log|, base, branch);
      AnsweredConcat(g, |r.log|, Flatten(s.visits), |s.repo.log|, t.events);
    }
  }

  /** The loop's repository is the replay of its visits' events, which the
      gateway answered in order. */
  lemma {:induction false} RunLoopReplay(r: Repo, g: Gateway, base: string, files: seq<string>)
    ensures var s := RunLoop(r, g, base, files);
      s.repo == Replay(r, Flatten(s.visits)) && Answered(g, |r.log|, Flatten(s.visits))
    decreases |files|
  {
    if files != [] {
      var init := files[..|files| - 1];
      var s := RunLoop(r, g, base, init);
      RunLoopReplay(r, g, base, init);
      ReplayEffect(r, Flatten(s.visits));
      LoopStepReplay(r, g, base, s, files[|files| - 1]);
      LoopStepAnswered(r, g, base, s, files[|files| - 1]);
    }
  }

  /** A pass of the loop body never fails on the HEAD parse. */
  lemma VisitNeverHeadError(g: Gateway, k: nat, base: string, branch: string)
    ensures VisitTrace(g, k, base, branch).value != Halted(HeadError)
  {
  }

  lemma {:induction false} RunLoopOrder(r: Repo, g: Gateway, base: string, files: seq<string>)
    ensures LoopOrderFacts(base, files, RunLoop(r, g, base, files))
    decreases |files|
  {
    if files != [] {
      var init := files[..|files| - 1];
      var branch := files[|files| - 1];
      var s := RunLoop(r, g, base, init);
      RunLoopOrder(r, g, base, init);
      if s.failure.None? && branch != base {
        VisitNeverHeadError(g, |s.repo.log|, base, branch);
      }
      assert Topics(base, files) == Topics(base, init) + (if branch == base then [] else [branch]);
      if s.failure.None? && branch != base {
        var vs := RunLoop(r, g, base, files).visits;
        assert Branches(vs) == Branches(s.visits) + [branch];
      }
    }
  }

  lemma {:induction false} RunLoopVisitsSound(r: Repo, g: Gateway, base: string, files: seq<string>)
    ensures AllSound(base, RunLoop(r, g, base, files).visits)
    decreases |files|
  {
    if files != [] {
      var s := RunLoop(r, g, base, files[..|files| - 1]);
      RunLoopVisitsSound(r, g, base, files[..|files| - 1]);
      if s.failure.None? && files[|files| - 1] != base {
        VisitTraceSound(g, |s.repo.log|, base, files[|files| - 1]);
      }
    }
  }

  /** Sound visits remove exactly the branches they deleted. */
  lemma {:induction false} RemovedByVisits(base: string, vs: seq<Visit>)
    requires AllSound(base, vs)
    ensures Removed(Flatten(vs)) == DeletedBranches(vs)
    decreases |vs|
  {
    if vs != [] {
      var init, v := vs[..|vs| - 1], vs[|vs| - 1];
      assert vs == init + [v];
      RemovedByVisits(base, init);
      FlattenSnoc(init, v);
      RemovedConcat(Flatten(init), v.events);
      VisitRemoves(base, v);
    }
  }

  /** Names the listing holds once each stay single among the topics. */
  lemma {:induction false} TopicsDistinct(base: string, files: seq<string>)
    requires Distinct(files)
    ensures Distinct(Topics(base, files))
    decreases |files|
  {
    if files != [] {
      var init := files[..|files| - 1];
      assert Distinct(init);
      TopicsDistinct(base, init);
      assert files[|files| - 1] !in init;
    }
  }

  // ---------------------------------------------------------------------------
  // A whole run

  lemma NoFatalConcat(a: seq<Event>, b: seq<Event>)
    ensures NoFatal(a + b) <==> NoFatal(a) && NoFatal(b)
  {
    if NoFatal(a) && NoFatal(b) {
      forall i | 0 <= i < |a + b|
        ensures !Fatal((a + b)[i])
      {
        if i >= |a| {
          assert (a + b)[i] == b[i - |a|];
        } else {
          assert (a + b)[i] == a[i];
        }
      }
    }
    if NoFatal(a + b) {
      forall i | 0 <= i < |b|
        ensures !Fatal(b[i])
      {
        assert (a + b)[|a| + i] == b[i];
      }
      forall i | 0 <= i < |a|
        ensures !Fatal(a[i])
      {
        assert (a + b)[i] == a[i];
      }
    }
  }

  /** Sound visits that all went on issued no fatal reply. */
  lemma {:induction false} FlattenNoFatal(vs: seq<Visit>)
    requires AllHaltOnFatal(vs)
    requires forall i :: 0 <= i < |vs| ==> !vs[i].verdict.Halted?
    ensures NoFatal(Flatten(vs))
    decreases |vs|
  {
    if vs != [] {
      var init, v := vs[..|vs| - 1], vs[|vs| - 1];
      assert HaltsOnFatal(v);
      FlattenNoFatal(init);
      var es := v.events;
      assert es == es[..|es| - 1] + [es[|es| - 1]];
      NoFatalConcat(es[..|es| - 1], [es[|es| - 1]]);
      FlattenSnoc(init, v);
      assert vs == init + [v];
      NoFatalConcat(Flatten(init), es);
    }
  }

  /** The events a run added to the log of `r`. */
  function Issued(r: Repo, run: Run): seq<Event>
  {
    if |r.log| <= |run.repo.log| then run.repo.log[|r.log|..] else []
  }

  /** What a run's exit says about the commands it issued. */
  predicate ExitFacts(r: Repo, g: Gateway, parsed: Result<string, ParseError>, run: Run)
  {
    run.repo.log == r.log + Issued(r, run) && Answered(g, |r.log|, Issued(r, run)) &&
    (run.exit == Completed <==> parsed.Ok? && NoFatal(Issued(r, run))) &&
    (run.exit == Exited(HeadError) <==> parsed.Err?) &&
    (run.exit == Exited(HeadError) ==> run.repo == r) &&
    (run.exit.Exited? && run.exit != Exited(HeadError) ==>
      var es := Issued(r, run);
      0 < |es| && Fatal(es[|es| - 1]) && NoFatal(es[..|es| - 1]))
  }

  /** A run completes exactly when HEAD parses and no gateway reply was fatal;
      otherwise it stops at the first fatal reply and issues nothing after it.
      An unparsable HEAD leaves the repository untouched. */
  lemma RunHaltsOnFirstFatal(r: Repo, g: Gateway, headText: string, files: seq<string>)
    ensures ExitFacts(r, g, ParseRefForBranch(headText), RunTool(r, g, headText, files))
  {
    ParsedExitFacts(r, g, ParseRefForBranch(headText), files);
  }

  /** `RunHaltsOnFirstFatal` for any result of the parse. */
  lemma ParsedExitFacts(r: Repo, g: Gateway, parsed: Result<string, ParseError>, files: seq<string>)
    ensures ExitFacts(r, g, parsed, RunParsed(r, g, parsed, files))
  {
    var run := RunParsed(r, g, parsed, files);
    match parsed
    case Err(_) =>
      assert Issued(r, run) == [];
    case Ok(base) =>
      var s := RunLoop(r, g, base, files);
      LoopLog(r, g, base, files);
      RunLoopOrder(r, g, base, files);
      if s.failure.Some? {
        LoopHaltedExit(r, g, base, s);
      } else {
        LoopCompletedExit(r, g, base, s);
      }
  }

  /** The loop's log is the log of `r` followed by its visits' events, which
      the gateway answered in order, and each visit keeps `HaltsOnFatal`. */
  lemma LoopLog(r: Repo, g: Gateway, base: string, files: seq<string>)
    ensures var s := RunLoop(r, g, base, files);
      s.repo.log == r.log + Flatten(s.visits) && Answered(g, |r.log|, Flatten(s.visits)) &&
      AllHaltOnFatal(s.visits)
  {
    var s := RunLoop(r, g, base, files);
    RunLoopReplay(r, g, base, files);
    ReplayEffect(r, Flatten(s.visits));
    assert AllHaltOnFatal(s.visits) by {
      RunLoopVisitsSound(r, g, base, files);
    }
  }

  lemma LoopHaltedExit(r: Repo, g: Gateway, base: string, s: LoopState)
    requires s.repo.log == r.log + Flatten(s.visits) && Answered(g, |r.log|, Flatten(s.visits))
    requires AllHaltOnFatal(s.visits) && s.failure.Some? && s.failure != Some(HeadError)
    requires 0 < |s.visits| && s.visits[|s.visits| - 1].verdict.Halted?
    requires forall i :: 0 <= i < |s.visits| - 1 ==> !s.visits[i].verdict.Halted?
    ensures ExitFacts(r, g, Ok(base), Run(s.repo, s.visits, Exited(s.failure.value)))
  {
    var run := Run(s.repo, s.visits, Exited(s.failure.value));
    HaltedRun(s.visits);
    assert Issued(r, run) == Flatten(s.visits);
  }

  lemma LoopCompletedExit(r: Repo, g: Gateway, base: string, s: LoopState)
    requires s.repo.log == r.log + Flatten(s.visits) && Answered(g, |r.log|, Flatten(s.visits))
    requires AllHaltOnFatal(s.visits)
    requires forall i :: 0 <= i < |s.visits| ==> !s.visits[i].verdict.Halted?
    ensures var reply := g(|s.repo.log|);
      ExitFacts(r, g, Ok(base), Run(Apply(s.repo, Checkout(base), reply), s.visits,
                                    if reply.success then Completed else Exited(CheckoutError(base))))
  {
    var reply := g(|s.repo.log|);
    var run := Run(Apply(s.repo, Checkout(base), reply), s.visits,
                   if reply.success then Completed else Exited(CheckoutError(base)));
    var f := Flatten(s.visits);
    FlattenNoFatal(s.visits);
    var e := Event(Checkout(base), reply);
    assert run.repo.log == r.log + (f + [e]);
    assert Issued(r, run) == f + [e];
    AnsweredConcat(g, |r.log|, f, |s.repo.log|, [e]);
    NoFatalConcat(f, [e]);
    assert NoFatal([e]) <==> reply.success by {
      assert [e][0] == e;
    }
    var es := Issued(r, run);
    assert es[..|es| - 1] == f;
  }

  /** In a loop that halted, the last event is the fatal one and no event
      before it is fatal. */
  lemma HaltedRun(vs: seq<Visit>)
    requires AllHaltOnFatal(vs) && 0 < |vs| && vs[|vs| - 1].verdict.Halted?
    requires forall i :: 0 <= i < |vs| - 1 ==> !vs[i].verdict.Halted?
    ensures var es := Flatten(vs);
      0 < |es| && Fatal(es[|es| - 1]) && NoFatal(es[..|es| - 1])
  {
    var init, v := vs[..|vs| - 1], vs[|vs| - 1];
    assert HaltsOnFatal(v);
    assert vs == init + [v];
    FlattenSnoc(init, v);
    FlattenNoFatal(init);
    var es := Flatten(vs);
    assert es == Flatten(init) + v.events;
    assert es[..|es| - 1] == Flatten(init) + v.events[..|v.events| - 1];
    NoFatalConcat(Flatten(init), v.events[..|v.events| - 1]);
    assert es[|es| - 1] == v.events[|v.events| - 1];
  }

  /** What a run guarantees about branches: the base is never a topic, the
      topics are taken in listing order, each at most once, every visit is
      sound, exactly the branches of visits that deleted are gone, and a
      completed run visited every topic and ends with the base checked out. */
  lemma RunToolSound(r: Repo, g: Gateway, headText: string, files: seq<string>)
    requires ParseRefForBranch(headText).Ok?
    ensures var base := ParseRefForBranch(headText).value;
      var run := RunTool(r, g, headText, files);
      Branches(run.visits) <= Topics(base, files) &&
      (forall i :: 0 <= i < |run.visits| ==> VisitSound(base, run.visits[i]) && run.visits[i].branch != base) &&
      (Distinct(files) ==> Distinct(Branches(run.visits))) &&
      run.repo.branches == r.branches - DeletedBranches(run.visits) &&
      (base in run.repo.branches <==> base in r.branches) &&
      (run.exit == Completed ==> run.repo.head == base && Branches(run.visits) == Topics(base, files))
  {
    var base := ParseRefForBranch(headText).value;
    var run := RunTool(r, g, headText, files);
    var s := RunLoop(r, g, base, files);
    RunLoopReplay(r, g, base, files);
    RunLoopOrder(r, g, base, files);
    RunLoopVisitsSound(r, g, base, files);
    ReplayEffect(r, Flatten(s.visits));
    RemovedByVisits(base, s.visits);
    assert s.repo.branches == r.branches - DeletedBranches(s.visits);
    var bs := Branches(run.visits);
    forall i | 0 <= i < |run.visits|
      ensures run.visits[i].branch != base
    {
      assert bs[i] in Topics(base, files);
    }
    if Distinct(files) {
      TopicsDistinct(base, files);
    }
  }
}
