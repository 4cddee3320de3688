/** The tool itself, step by step, driving a `Repository`: the helpers
    `checkoutBranch`, `rebaseBranch`, `diffBranch`, `deleteBranch` and the loop
    of `main` (main.go:36-166). Each method is proved to change the repository
    exactly as the replay of the corresponding trace of `Workflow`, and to
    return the value that trace decides; the guarantees proved there carry
    over to these methods. */
module Tool {
  import opened Text
  import opened HeadRef
  import opened Outcome
  import opened Git
  import opened Workflow

  /** `checkoutBranch` (main.go:120-122): `ok` is false exactly when the
      command failed. */
  method CheckoutBranch(repo: Repository, branch: string) returns (ok: bool)
    modifies repo
    ensures ok == repo.gateway(|old(repo.log)|).success
    ensures repo.Value() == Exec(old(repo.Value()), repo.gateway, Checkout(branch))
  {
    var reply := repo.Run(Checkout(branch));
    ok := reply.success;
  }

  /** `rebaseBranch` (main.go:124-143): the conflict markers are tested first;
      only then does the process signal decide. */
  method RebaseBranch(repo: Repository, base: string) returns (outcome: RebaseOutcome)
    modifies repo
    ensures var t := RebaseTrace(repo.gateway, |old(repo.log)|, base);
      repo.Value() == Replay(old(repo.Value()), t.events) && outcome == t.value
  {
    ghost var r0 := repo.Value();
    var reply := repo.Run(Rebase(base));
    ghost var e0 := Event(Rebase(base), reply);
    assert repo.Value() == Replay(r0, [e0]);
    if Contains(reply.output, ConflictToken) && Contains(reply.output, AbortToken) {
      var abort := repo.Run(AbortRebase);
      ReplaySnoc(r0, [e0], Event(AbortRebase, abort));
      assert [e0] + [Event(AbortRebase, abort)] == [e0, Event(AbortRebase, abort)];
      if !abort.success {
        return AbortFailed;
      }
      return RolledBack;
    }
    if !reply.success {
      return RebaseFailed;
    }
    return Rebased;
  }

  /** `diffBranch` (main.go:145-158): any output means the branch has content. */
  method DiffBranch(repo: Repository, base: string, branch: string) returns (outcome: DiffOutcome)
    modifies repo
    ensures var t := DiffTrace(repo.gateway, |old(repo.log)|, base, branch);
      repo.Value() == Replay(old(repo.Value()), t.events) && outcome == t.value
  {
    ghost var r0 := repo.Value();
    var reply := repo.Run(Diff(base, branch));
    assert repo.Value() == Replay(r0, [Event(Diff(base, branch), reply)]);
    if !reply.success {
      return DiffFailed;
    }
    if |reply.output| != 0 {
      return HasContent;
    }
    return NoContent;
  }

  /** `deleteBranch` (main.go:160-166): `ok` is false exactly when the forced
      delete failed. */
  method DeleteBranch(repo: Repository, branch: string) returns (ok: bool)
    modifies repo
    ensures ok == repo.gateway(|old(repo.log)|).success
    ensures repo.Value() == Exec(old(repo.Value()), repo.gateway, ForceDelete(branch))
  {
    var reply := repo.Run(ForceDelete(branch));
    ok := reply.success;
  }

  /** The `if success` block of the loop body (main.go:72-91): back to the
      base, diff, and delete the branch when nothing differs. */
  method PruneRebased(repo: Repository, base: string, branch: string) returns (verdict: Verdict)
    modifies repo
    ensures var t := PruneTrace(repo.gateway, |old(repo.log)|, base, branch);
      repo.Value() == Replay(old(repo.Value()), t.events) && verdict == t.value
  {
    ghost var r0 := repo.Value();
    ghost var k := |repo.log|;
    ghost var g := repo.gateway;
    var ok := CheckoutBranch(repo, base);
    ghost var es := [Event(Checkout(base), g(k))];
    assert repo.Value() == Replay(r0, es);
    if !ok {
      return Halted(CheckoutError(base));
    }
    var hasContent := DiffBranch(repo, base, branch);
    ghost var d := DiffTrace(g, k + 1, base, branch);
    assert repo.Value() == Replay(r0, es + d.events) by {
      ReplayConcat(r0, es, d.events);
    }
    es := es + d.events;
    if hasContent == DiffFailed {
      return Halted(DiffError(branch));
    } else if hasContent == HasContent {
      return KeptWithContent;
    }
    ok := DeleteBranch(repo, branch);
    assert repo.Value() == Replay(r0, es + [Event(ForceDelete(branch), g(k + 2))]) by {
      ReplaySnoc(r0, es, Event(ForceDelete(branch), g(k + 2)));
    }
    if !ok {
      return Halted(DeleteError(branch));
    }
    return Deleted;
  }

  /** One pass of the loop body of `main` for a topic branch (main.go:58-94). */
  method CheckBranch(repo: Repository, base: string, branch: string) returns (verdict: Verdict)
    modifies repo
    ensures var t := VisitTrace(repo.gateway, |old(repo.log)|, base, branch);
      repo.Value() == Replay(old(repo.Value()), t.events) && verdict == t.value
  {
    ghost var r0 := repo.Value();
    ghost var k := |repo.log|;
    ghost var g := repo.gateway;
    ghost var t := VisitTrace(g, k, base, branch);
    var ok := CheckoutBranch(repo, branch);
    ghost var checkout := [Event(Checkout(branch), g(k))];
    assert repo.Value() == Replay(r0, checkout);
    if !ok {
      assert t == Trace(checkout, Halted(CheckoutError(branch)));
      return Halted(CheckoutError(branch));
    }
    var success := RebaseBranch(repo, base);
    ghost var rb := RebaseTrace(g, k + 1, base);
    assert repo.Value() == Replay(r0, checkout + rb.events) by {
      ReplayConcat(r0, checkout, rb.events);
    }
    if success == RebaseFailed {
      assert t == Trace(checkout + rb.events, Halted(RebaseError(branch)));
      return Halted(RebaseError(branch));
    } else if success == AbortFailed {
      assert t == Trace(checkout + rb.events, Halted(AbortError(branch)));
      return Halted(AbortError(branch));
    } else if success == RolledBack {
      assert t == Trace(checkout + rb.events, KeptConflicted);
      return KeptConflicted;
    }
    assert |checkout + rb.events| == 2;
    verdict := PruneRebased(repo, base, branch);
    ghost var p := PruneTrace(g, k + 2, base, branch);
    assert t == Trace(checkout + rb.events + p.events, p.value);
    assert repo.Value() == Replay(r0, checkout + rb.events + p.events) by {
      ReplayConcat(r0, checkout + rb.events, p.events);
    }
  }

  /** Once the loop has failed, further names in the listing change nothing. */
  lemma {:induction false} FailureIsFinal(r: Repo, g: Gateway, base: string, files: seq<string>, more: seq<string>)
    requires RunLoop(r, g, base, files).failure.Some?
    ensures RunLoop(r, g, base, files + more) == RunLoop(r, g, base, files)
    decreases |more|
  {
    if more == [] {
      assert files + more == files;
    } else {
      var init := more[..|more| - 1];
      FailureIsFinal(r, g, base, files, init);
      assert (files + more)[..|files + more| - 1] == files + init;
    }
  }

  /** The loop state after name `i` is one step on from the state before it. */
  lemma RunLoopAt(r: Repo, g: Gateway, base: string, files: seq<string>, i: nat)
    requires i < |files|
    ensures RunLoop(r, g, base, files[..i + 1]) == LoopStep(g, base, RunLoop(r, g, base, files[..i]), files[i])
  {
    assert files[..i + 1][..i] == files[..i];
  }

  /** One iteration of the loop of `main` (main.go:52-94) on the listed name
      `branch`, from the loop state `s`: the base branch is skipped, any other
      name is checked, and `failure` reports a fatal reply. */
  method HandleListed(repo: Repository, base: string, branch: string, ghost s: LoopState)
    returns (failure: Option<Failure>, ghost next: LoopState)
    requires s.repo == repo.Value() && s.failure.None?
    modifies repo
    ensures next == LoopStep(repo.gateway, base, s, branch)
    ensures repo.Value() == next.repo && failure == next.failure
  {
    if branch == base {
      return None, s;
    }
    ghost var t := VisitTrace(repo.gateway, |repo.log|, base, branch);
    var verdict := CheckBranch(repo, base, branch);
    failure := if verdict.Halted? then Some(verdict.failure) else None;
    next := LoopState(repo.Value(), s.visits + [Visit(branch, t.events, t.value)], failure);
  }

  /** The loop state before any name of the listing is handled. */
  lemma RunLoopStart(r: Repo, g: Gateway, base: string, files: seq<string>)
    ensures RunLoop(r, g, base, files[..0]) == LoopState(r, [], None)
  {
    assert files[..0] == [];
  }

  /** A failure while handling name `i` is the loop's final state. */
  lemma RunLoopHalts(r: Repo, g: Gateway, base: string, files: seq<string>, i: nat)
    requires i < |files| && RunLoop(r, g, base, files[..i + 1]).failure.Some?
    ensures RunLoop(r, g, base, files) == RunLoop(r, g, base, files[..i + 1])
  {
    FailureIsFinal(r, g, base, files[..i + 1], files[i + 1..]);
    assert files[..i + 1] + files[i + 1..] == files;
  }

  /** The loop of `main` (main.go:51-95) over the listing `files`: it stops
      at the first failure. */
  method HandleListing(repo: Repository, base: string, files: seq<string>) returns (failure: Option<Failure>)
    modifies repo
    ensures var s := RunLoop(old(repo.Value()), repo.gateway, base, files);
      repo.Value() == s.repo && failure == s.failure
  {
    ghost var r0 := repo.Value();
    ghost var g := repo.gateway;
    ghost var s := LoopState(r0, [], None);
    RunLoopStart(r0, g, base, files);
    var i := 0;
    while i < |files|
      invariant 0 <= i <= |files|
      invariant RunLoop(r0, g, base, files[..i]) == s
      invariant s.repo == repo.Value() && s.failure.None?
    {
      RunLoopAt(r0, g, base, files, i);
      failure, s := HandleListed(repo, base, files[i], s);
      if failure.Some? {
        RunLoopHalts(r0, g, base, files, i);
        return;
      }
      i := i + 1;
    }
    assert files[..i] == files;
    failure := None;
  }

  /** `main` from the parse of HEAD on (main.go:36-100), given the text of
      `.git/HEAD` and the listing of `.git/refs/heads`: it ends in the state
      and with the exit that `RunTool` describes. */
  method RebaseAndPrune(repo: Repository, headText: string, files: seq<string>) returns (exit: Exit)
    modifies repo
    ensures var run := RunTool(old(repo.Value()), repo.gateway, headText, files);
      repo.Value() == run.repo && exit == run.exit
  {
    var parsed := ParseRefForBranch(headText);
    if parsed.Err? {
      return Exited(HeadError);
    }
    var base := parsed.value;
    var failure := HandleListing(repo, base, files);
    if failure.Some? {
      return Exited(failure.value);
    }
    var ok := CheckoutBranch(repo, base);
    exit := if ok then Completed else Exited(CheckoutError(base));
  }
}
