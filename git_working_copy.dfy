/**
 * An in-memory fake of the local git working copy the conversion commands
 * drive. It keeps
 *  - the trace of every operation issued, in order, including the ones that
 *    failed; the calls to the remote collaborators (composer.json migration,
 *    push, build trigger, workflow wait, drush) are recorded in the same trace
 *    so that their order relative to the git operations is observable;
 *  - the changes made to the working tree since the last commit;
 *  - the commit log;
 *  - the content of `pantheon.yml` in the working tree, the only file whose
 *    content the commands read.
 * Failures are injected: an operation fails, and then changes nothing but the
 * trace, exactly when it belongs to `Fakes.failing`; whether a checkout, move
 * or remove actually changes the working tree is given by `Fakes.changing`.
 */
module GitWorkingCopy {
  import opened Wrappers
  import opened Paths

  /** The two kinds of custom project directories. */
  datatype SubDir = Modules | Themes

  function SubDirName(s: SubDir): string {
    match s
    case Modules => "modules"
    case Themes => "themes"
  }

  /** The commit messages the conversion writes, as tags. */
  datatype CommitMessage =
    | PullInConfiguration
    | CopyPantheonYml
    | AddBuildStep
    | CopyCustom(subDir: SubDir, from: Path)
    | CopySettingsPhp

  /** Git primitives. A checkout always restores a path from the default branch. */
  datatype GitOp =
    | CreateBranchFromRemote(remoteUrl: string)
    | Checkout(path: Path)
    | Move(source: Path, target: Path, force: bool)
    | Remove(path: Path, force: bool)
    | Status
    | Commit(message: CommitMessage)
    | AddRemote(url: string, name: string)
    | Fetch(remote: string)

  /** Calls into collaborators whose code is not part of this model. */
  datatype Action =
    | MigrateComposerJson
    | PushTargetBranch
    | TriggerBuild
    | WaitForSyncCodeWorkflow(branch: string)
    | RunDrushCommand(command: string)

  datatype Event = Op(op: GitOp) | Remote(action: Action)

  /** A YAML scalar: a boolean, or any other kind of value. */
  datatype YamlValue = YBool(b: bool) | YOther

  /** The keys of `pantheon.yml` the commands look at; `None` when a key is absent. */
  datatype PantheonYml = PantheonYml(webDocroot: Option<bool>, buildStep: Option<YamlValue>)

  /** A change to the working tree: staged by a git operation, or a file written directly. */
  datatype Change = Staged(op: GitOp) | Written(path: Path)

  datatype CommitRecord = CommitRecord(message: CommitMessage, changes: seq<Change>)

  datatype Repo = Repo(
    trace: seq<Event>,
    pending: seq<Change>,
    commits: seq<CommitRecord>,
    pantheonYml: PantheonYml)

  /**
   * What the fake is told about the outside world: the operations that fail,
   * the operations that change the working tree, and `pantheon.yml` as the
   * default branch and the target upstream have it.
   */
  datatype Fakes = Fakes(
    failing: set<Event>,
    changing: set<GitOp>,
    defaultYml: PantheonYml,
    upstreamYml: PantheonYml)

  predicate IsCommit(e: Event) {
    e.Op? && e.op.Commit?
  }

  predicate NoCommits(es: seq<Event>) {
    forall e | e in es :: !IsCommit(e)
  }

  predicate AllSucceed(f: Fakes, es: seq<Event>) {
    forall e | e in es :: e !in f.failing
  }

  /** The change a successful operation leaves in the working tree. */
  function Touched(f: Fakes, op: GitOp): seq<Change> {
    if (op.Checkout? || op.Move? || op.Remove?) && op in f.changing then [Staged(op)] else []
  }

  /** Issues one operation. */
  function Exec(f: Fakes, r: Repo, e: Event): (res: (Repo, bool))
    ensures res.0.trace == r.trace + [e]
    ensures res.1 <==> e !in f.failing
    ensures !res.1 ==> res.0 == r.(trace := r.trace + [e])
    ensures !IsCommit(e) ==> res.0.commits == r.commits
    ensures res.1 && IsCommit(e) ==> res.0.pending == [] && res.0.commits == r.commits + [CommitRecord(e.op.message, r.pending)]
  {
    var traced := r.(trace := r.trace + [e]);
    if e in f.failing then (traced, false)
    else
      match e
      case Remote(_) => (traced, true)
      case Op(op) =>
        match op
        case CreateBranchFromRemote(_) => (traced.(pantheonYml := f.upstreamYml), true)
        case Commit(m) => (traced.(pending := [], commits := r.commits + [CommitRecord(m, r.pending)]), true)
        case Checkout(p) =>
          (traced.(pending := r.pending + Touched(f, op),
                   pantheonYml := if p == PantheonYmlPath then f.defaultYml else r.pantheonYml), true)
        case Move(_, _, _) => (traced.(pending := r.pending + Touched(f, op)), true)
        case Remove(_, _) => (traced.(pending := r.pending + Touched(f, op)), true)
        case _ => (traced, true)
  }

  /** Writes `pantheon.yml` directly through the filesystem: not a git operation. */
  function WrittenPantheonYml(r: Repo, content: PantheonYml): (r': Repo)
    ensures r'.trace == r.trace && r'.commits == r.commits && r'.pending != []
  {
    r.(pending := r.pending + [Written(PantheonYmlPath)], pantheonYml := content)
  }

  /**
   * Issues `es` in order and stops at the first failure, like a sequence of
   * calls that each throw on failure; the second component is the failed one.
   */
  function Run(f: Fakes, r: Repo, es: seq<Event>): (Repo, Option<Event>)
    decreases |es|
  {
    if es == [] then (r, None)
    else
      var (r1, ok) := Exec(f, r, es[0]);
      if !ok then (r1, Some(es[0])) else Run(f, r1, es[1..])
  }

  /** The operations `Run` issues: those of `es` up to and including the first failing one. */
  function Attempted(f: Fakes, es: seq<Event>): (a: seq<Event>)
    ensures a <= es
    ensures es != [] ==> a != []
    decreases |es|
  {
    if es == [] then []
    else if es[0] in f.failing then [es[0]]
    else [es[0]] + Attempted(f, es[1..])
  }

  /** The working-tree changes made by the operations of `es`, when they all succeed. */
  function Changes(f: Fakes, es: seq<Event>): seq<Change>
    decreases |es|
  {
    if es == [] then []
    else (if es[0].Op? then Touched(f, es[0].op) else []) + Changes(f, es[1..])
  }

  lemma {:induction false} RunIssuesUntilFailure(f: Fakes, r: Repo, es: seq<Event>)
    ensures Run(f, r, es).0.trace == r.trace + Attempted(f, es)
    ensures Run(f, r, es).1.None? <==> AllSucceed(f, es)
    ensures Run(f, r, es).1.Some? ==>
              var a := Attempted(f, es);
              Run(f, r, es).1.value == a[|a| - 1] && a[|a| - 1] in f.failing
    decreases |es|
  {
    if es != [] && es[0] !in f.failing {
      var r1 := Exec(f, r, es[0]).0;
      RunIssuesUntilFailure(f, r1, es[1..]);
      AppendAssoc(r.trace, [es[0]], Attempted(f, es[1..]));
      if AllSucceed(f, es[1..]) {
        forall e | e in es ensures e !in f.failing {
          if e != es[0] { assert e in es[1..]; }
        }
      }
    }
  }

  lemma {:induction false} RunKeepsCommits(f: Fakes, r: Repo, es: seq<Event>)
    requires NoCommits(es)
    ensures Run(f, r, es).0.commits == r.commits
    decreases |es|
  {
    if es != [] {
      var (r1, ok) := Exec(f, r, es[0]);
      if ok {
        assert forall e | e in es[1..] :: e in es;
        RunKeepsCommits(f, r1, es[1..]);
      }
    }
  }

  lemma {:induction false} RunStagesChanges(f: Fakes, r: Repo, es: seq<Event>)
    requires NoCommits(es) && AllSucceed(f, es)
    ensures Run(f, r, es).0.pending == r.pending + Changes(f, es)
    decreases |es|
  {
    if es != [] {
      var (r1, ok) := Exec(f, r, es[0]);
      assert r1.pending == r.pending + (if es[0].Op? then Touched(f, es[0].op) else []);
      assert forall e | e in es[1..] :: e in es;
      RunStagesChanges(f, r1, es[1..]);
    }
  }

  /** `if (isAnythingToCommit()) commit(msg)`: the commit-if-dirty building block. */
  function CommitIfDirty(f: Fakes, r: Repo, msg: CommitMessage): (Repo, Option<Event>)
  {
    var (r1, ok) := Exec(f, r, Op(Status));
    if !ok then (r1, Some(Op(Status)))
    else if r1.pending == [] then (r1, None)
    else
      var (r2, ok2) := Exec(f, r1, Op(Commit(msg)));
      (r2, if ok2 then None else Some(Op(Commit(msg))))
  }

  /** Prepares the working tree with `prep` and then commits if anything changed. */
  function CopyThenCommit(f: Fakes, r: Repo, prep: seq<Event>, msg: CommitMessage): (Repo, Option<Event>)
  {
    var (r1, failed) := Run(f, r, prep);
    if failed.Some? then (r1, failed) else CommitIfDirty(f, r1, msg)
  }

  /** Peels the first preparation operation off a copy step. */
  lemma CopyThenCommitFirst(f: Fakes, r: Repo, prep: seq<Event>, msg: CommitMessage)
    requires prep != []
    ensures var (r1, ok) := Exec(f, r, prep[0]);
            CopyThenCommit(f, r, prep, msg) ==
              if ok then CopyThenCommit(f, r1, prep[1..], msg) else (r1, Some(prep[0]))
  {
  }

  /** Two commit-if-dirty calls in a row: the second never commits. */
  lemma CommitIfDirtyTwice(f: Fakes, r: Repo, m1: CommitMessage, m2: CommitMessage)
    ensures var (r1, failed) := CommitIfDirty(f, r, m1);
            failed.None? ==> CommitIfDirty(f, r1, m2).0.commits == r1.commits
  {
  }

  /**
   * A copy step issues its preparation, the status query and the commit in
   * that order, stopping early; its first operation is always issued.
   */
  lemma CopyThenCommitTrace(f: Fakes, r: Repo, prep: seq<Event>, msg: CommitMessage)
    ensures var r' := CopyThenCommit(f, r, prep, msg).0;
            && r.trace <= r'.trace
            && r'.trace[|r.trace|..] <= prep + [Op(Status), Op(Commit(msg))]
            && |r'.trace| > |r.trace|
            && r'.trace[|r.trace|] == (prep + [Op(Status)])[0]
  {
    RunIssuesUntilFailure(f, r, prep);
    var (r1, failed) := Run(f, r, prep);
    var a := Attempted(f, prep);
    var plan := prep + [Op(Status), Op(Commit(msg))];
    assert r1.trace[|r.trace|..] == a;
    if failed.None? {
      assert a == prep by {
        AttemptedAllSucceed(f, prep);
      }
      var r' := CopyThenCommit(f, r, prep, msg).0;
      assert r'.trace == r.trace + prep + [Op(Status)] || r'.trace == r.trace + prep + [Op(Status), Op(Commit(msg))];
      assert r'.trace[|r.trace|..] == prep + [Op(Status)] || r'.trace[|r.trace|..] == plan;
    } else {
      assert a <= plan;
    }
  }

  lemma {:induction false} AttemptedAllSucceed(f: Fakes, es: seq<Event>)
    requires AllSucceed(f, es)
    ensures Attempted(f, es) == es
    decreases |es|
  {
    if es != [] {
      assert forall e | e in es[1..] :: e in es;
      AttemptedAllSucceed(f, es[1..]);
    }
  }

  /**
   * A copy step makes at most one commit: exactly when every operation
   * succeeds and the tree is dirty, and the commit carries every pending change.
   */
  lemma CopyThenCommitCommits(f: Fakes, r: Repo, prep: seq<Event>, msg: CommitMessage)
    requires NoCommits(prep)
    ensures var (r', failed) := CopyThenCommit(f, r, prep, msg);
            var changes := r.pending + Changes(f, prep);
            var prepared := AllSucceed(f, prep) && Op(Status) !in f.failing;
            && (failed.None? <==> prepared && (changes != [] ==> Op(Commit(msg)) !in f.failing))
            && r'.commits == if prepared && changes != [] && Op(Commit(msg)) !in f.failing
                             then r.commits + [CommitRecord(msg, changes)]
                             else r.commits
  {
    RunIssuesUntilFailure(f, r, prep);
    RunKeepsCommits(f, r, prep);
    var (r1, failed) := Run(f, r, prep);
    if AllSucceed(f, prep) {
      RunStagesChanges(f, r, prep);
      var (r2, ok) := Exec(f, r1, Op(Status));
      assert r2.pending == r.pending + Changes(f, prep);
      assert r2.commits == r.commits;
    }
  }

  class FakeGit {
    const fakes: Fakes
    var trace: seq<Event>
    var pending: seq<Change>
    var commits: seq<CommitRecord>
    var pantheonYml: PantheonYml

    function State(): Repo
      reads this
    {
      Repo(trace, pending, commits, pantheonYml)
    }

    constructor (fakes: Fakes, pantheonYml: PantheonYml)
      ensures this.fakes == fakes
      ensures State() == Repo([], [], [], pantheonYml)
    {
      this.fakes := fakes;
      trace, pending, commits := [], [], [];
      this.pantheonYml := pantheonYml;
    }

    /** Records `e` and reports whether it succeeds. */
    method Issue(e: Event) returns (ok: bool)
      modifies this
      ensures trace == old(trace) + [e]
      ensures ok <==> e !in fakes.failing
      ensures pending == old(pending) && commits == old(commits) && pantheonYml == old(pantheonYml)
    {
      trace := trace + [e];
      ok := e !in fakes.failing;
    }

    method CreateLocalGitBranchFromRemote(remoteUrl: string) returns (ok: bool)
      modifies this
      ensures (State(), ok) == Exec(fakes, old(State()), Op(CreateBranchFromRemote(remoteUrl)))
    {
      ok := Issue(Op(CreateBranchFromRemote(remoteUrl)));
      if ok {
        pantheonYml := fakes.upstreamYml;
      }
    }

    method Checkout(path: Path) returns (ok: bool)
      modifies this
      ensures (State(), ok) == Exec(fakes, old(State()), Op(GitOp.Checkout(path)))
    {
      ok := Issue(Op(GitOp.Checkout(path)));
      if ok {
        pending := pending + Touched(fakes, GitOp.Checkout(path));
        if path == PantheonYmlPath {
          pantheonYml := fakes.defaultYml;
        }
      }
    }

    method Move(source: Path, target: Path, force: bool) returns (ok: bool)
      modifies this
      ensures (State(), ok) == Exec(fakes, old(State()), Op(GitOp.Move(source, target, force)))
    {
      ok := Issue(Op(GitOp.Move(source, target, force)));
      if ok {
        pending := pending + Touched(fakes, GitOp.Move(source, target, force));
      }
    }

    method Remove(path: Path, force: bool) returns (ok: bool)
      modifies this
      ensures (State(), ok) == Exec(fakes, old(State()), Op(GitOp.Remove(path, force)))
    {
      ok := Issue(Op(GitOp.Remove(path, force)));
      if ok {
        pending := pending + Touched(fakes, GitOp.Remove(path, force));
      }
    }

    /** `isAnythingToCommit`: whether the working tree has uncommitted changes. */
    method IsAnythingToCommit() returns (ok: bool, dirty: bool)
      modifies this
      ensures (State(), ok) == Exec(fakes, old(State()), Op(Status))
      ensures dirty <==> ok && pending != []
    {
      ok := Issue(Op(Status));
      dirty := ok && pending != [];
    }

    method Commit(message: CommitMessage) returns (ok: bool)
      modifies this
      ensures (State(), ok) == Exec(fakes, old(State()), Op(GitOp.Commit(message)))
    {
      ok := Issue(Op(GitOp.Commit(message)));
      if ok {
        commits := commits + [CommitRecord(message, pending)];
        pending := [];
      }
    }

    method AddRemote(url: string, name: string) returns (ok: bool)
      modifies this
      ensures (State(), ok) == Exec(fakes, old(State()), Op(GitOp.AddRemote(url, name)))
    {
      ok := Issue(Op(GitOp.AddRemote(url, name)));
    }

    method Fetch(remote: string) returns (ok: bool)
      modifies this
      ensures (State(), ok) == Exec(fakes, old(State()), Op(GitOp.Fetch(remote)))
    {
      ok := Issue(Op(GitOp.Fetch(remote)));
    }

    /** A call into a remote collaborator. */
    method Call(action: Action) returns (ok: bool)
      modifies this
      ensures (State(), ok) == Exec(fakes, old(State()), Remote(action))
    {
      ok := Issue(Remote(action));
    }

    method WritePantheonYml(content: PantheonYml)
      modifies this
      ensures State() == WrittenPantheonYml(old(State()), content)
    {
      pending := pending + [Written(PantheonYmlPath)];
      pantheonYml := content;
    }
  }
}
