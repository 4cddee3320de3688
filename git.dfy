/** The abstract repository and the process gateway. Every `exec.Command("git", …)`
    of main.go becomes one `Command`; what git answers is not modelled but
    supplied by a `Gateway`, which gives the reply to the n-th command issued.
    The only effects a command has on the abstract state are the two the tool
    relies on: a successful checkout moves HEAD, a successful forced delete
    removes the branch. */
module Git {

  /** The git invocations of main.go:121, 125, 132, 146 and 161. */
  datatype Command =
    | Checkout(branch: string)                // git checkout <branch>
    | Rebase(onto: string)                    // git rebase <onto>, on the checked-out branch
    | AbortRebase                             // git rebase --abort
    | Diff(base: string, branch: string)      // git diff <base> <branch>
    | ForceDelete(branch: string)             // git branch -D <branch>

  /** Combined standard output and error, and whether the process succeeded. */
  datatype Reply = Reply(output: string, success: bool)

  /** One command issued and the reply it got. */
  datatype Event = Event(command: Command, reply: Reply)

  /** The reply given to the n-th command issued in a run. */
  type Gateway = nat -> Reply

  /** The abstract repository: its local branches, the checked-out branch, and
      every command issued so far. */
  datatype Repo = Repo(branches: set<string>, head: string, log: seq<Event>)

  /** The state after `c` was issued and answered with `reply`. */
  function Apply(r: Repo, c: Command, reply: Reply): (r': Repo)
    ensures r'.log == r.log + [Event(c, reply)]
    ensures r'.head == if c.Checkout? && reply.success then c.branch else r.head
    ensures r'.branches == if c.ForceDelete? && reply.success then r.branches - {c.branch} else r.branches
  {
    var log := r.log + [Event(c, reply)];
    if !reply.success then Repo(r.branches, r.head, log)
    else match c
      case Checkout(b) => Repo(r.branches, b, log)
      case ForceDelete(b) => Repo(r.branches - {b}, r.head, log)
      case _ => Repo(r.branches, r.head, log)
  }

  /** Issues `c` through the gateway `g`: it gets the reply numbered by how
      many commands came before it. */
  function Exec(r: Repo, g: Gateway, c: Command): (r': Repo)
    ensures r'.log == r.log + [Event(c, g(|r.log|))]
    ensures r'.head == if c.Checkout? && g(|r.log|).success then c.branch else r.head
    ensures r'.branches == if c.ForceDelete? && g(|r.log|).success then r.branches - {c.branch} else r.branches
  {
    Apply(r, c, g(|r.log|))
  }

  /** The state after the events `es` happened, in order, starting from `r`. */
  function Replay(r: Repo, es: seq<Event>): Repo
    decreases |es|
  {
    if es == [] then r
    else
      var last := es[|es| - 1];
      Apply(Replay(r, es[..|es| - 1]), last.command, last.reply)
  }

  /** The branches that a successful forced delete among `es` names. */
  function Removed(es: seq<Event>): set<string>
    decreases |es|
  {
    if es == [] then {}
    else
      var last := es[|es| - 1];
      Removed(es[..|es| - 1]) + (if last.command.ForceDelete? && last.reply.success then {last.command.branch} else {})
  }

  /** Replaying appends the events to the log and removes exactly the
      branches that were deleted successfully. */
  lemma {:induction false} ReplayEffect(r: Repo, es: seq<Event>)
    ensures Replay(r, es).log == r.log + es
    ensures Replay(r, es).branches == r.branches - Removed(es)
    decreases |es|
  {
    if es != [] {
      ReplayEffect(r, es[..|es| - 1]);
      assert es == es[..|es| - 1] + [es[|es| - 1]];
    }
  }

  /** Replaying one more event is applying it. */
  lemma ReplaySnoc(r: Repo, es: seq<Event>, e: Event)
    ensures Replay(r, es + [e]) == Apply(Replay(r, es), e.command, e.reply)
  {
    assert (es + [e])[..|es|] == es;
  }

  /** Replaying two runs of events is replaying their concatenation. */
  lemma {:induction false} ReplayConcat(r: Repo, a: seq<Event>, b: seq<Event>)
    ensures Replay(r, a + b) == Replay(Replay(r, a), b)
    decreases |b|
  {
    if b == [] {
      assert a + b == a;
    } else {
      var init := b[..|b| - 1];
      ReplayConcat(r, a, init);
      assert a + b == (a + init) + [b[|b| - 1]];
      ReplaySnoc(r, a + init, b[|b| - 1]);
    }
  }

  /** Deletions of two runs of events add up. */
  lemma {:induction false} RemovedConcat(a: seq<Event>, b: seq<Event>)
    ensures Removed(a + b) == Removed(a) + Removed(b)
    decreases |b|
  {
    if b == [] {
      assert a + b == a;
    } else {
      var init := b[..|b| - 1];
      RemovedConcat(a, init);
      assert a + b == (a + init) + [b[|b| - 1]];
      assert (a + b)[..|a + b| - 1] == a + init;
    }
  }

  /** The repository the tool drives, with the gateway that answers it. */
  class Repository {
    var branches: set<string>
    var head: string
    var log: seq<Event>
    const gateway: Gateway

    /** The abstract value of this repository. */
    function Value(): Repo
      reads this
    {
      Repo(branches, head, log)
    }

    constructor (branches: set<string>, head: string, gateway: Gateway)
      ensures Value() == Repo(branches, head, [])
      ensures this.gateway == gateway
    {
      this.branches := branches;
      this.head := head;
      this.log := [];
      this.gateway := gateway;
    }

    /** Runs one git command synchronously and returns its reply. */
    method Run(c: Command) returns (reply: Reply)
      modifies this
      ensures reply == gateway(|old(log)|)
      ensures Value() == Exec(old(Value()), gateway, c)
    {
      reply := gateway(|log|);
      log := log + [Event(c, reply)];
      if reply.success {
        match c {
          case Checkout(b) => head := b;
          case ForceDelete(b) => branches := branches - {b};
          case _ =>
        }
      }
    }
  }
}
