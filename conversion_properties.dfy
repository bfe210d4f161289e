/**
 * Properties of the conversion steps: what each step issues, which commits
 * it makes, and for the whole run the order of steps, the validation that
 * precedes every git operation and what a dry run leaves out.
 */
module ConversionProperties {
  import opened Wrappers
  import opened Paths
  import opened GitWorkingCopy
  import opened ConversionSteps

  // ----- Vocabulary -----

  /** The position of each commit in the fixed step order of `convert`. */
  function Rank(m: CommitMessage): nat {
    match m
    case PullInConfiguration => 0
    case CopyPantheonYml => 1
    case AddBuildStep => 2
    case CopyCustom(_, _) => 3
    case CopySettingsPhp => 4
  }

  predicate InStepOrder(cs: seq<CommitRecord>) {
    forall i, j :: 0 <= i < j < |cs| ==> Rank(cs[i].message) <= Rank(cs[j].message)
  }

  /**
   * `r'` is `r` after more operations: the trace and the commit log only grow,
   * and the new commits are in step order with ranks between `lo` and `hi`.
   */
  predicate Grows(r: Repo, r': Repo, lo: nat, hi: nat) {
    && r.trace <= r'.trace
    && r.commits <= r'.commits
    && InStepOrder(r'.commits[|r.commits|..])
    && forall c | c in r'.commits[|r.commits|..] :: lo <= Rank(c.message) <= hi
  }

  /** The operations issued after the trace `t`. */
  function Since(t: seq<Event>, r': Repo): seq<Event>
    requires t <= r'.trace
  {
    r'.trace[|t|..]
  }

  predicate Local(e: Event) {
    e.Op? || e == Remote(MigrateComposerJson)
  }

  predicate AllGit(es: seq<Event>) {
    forall e | e in es :: e.Op?
  }

  predicate AllLocal(es: seq<Event>) {
    forall e | e in es :: Local(e)
  }

  predicate NoMoves(es: seq<Event>) {
    forall e | e in es :: !(e.Op? && e.op.Move?)
  }

  /** The paths checked out from the default branch, in order. */
  function CheckedOut(es: seq<Event>): seq<Path>
    decreases |es|
  {
    if es == [] then []
    else (if es[0].Op? && es[0].op.Checkout? then [es[0].op.path] else []) + CheckedOut(es[1..])
  }

  /** The webroot-aware paths of the custom project directories, in list order. */
  function VisitOrder(w: bool, items: seq<CustomDir>): (paths: seq<Path>)
    ensures |paths| == |items|
    ensures forall i :: 0 <= i < |items| ==> paths[i] == WebRootAware(w, items[i].path)
    decreases |items|
  {
    if items == [] then [] else VisitOrder(w, items[..|items| - 1]) + [WebRootAware(w, items[|items| - 1].path)]
  }

  // ----- Sequence facts -----

  lemma SegmentSplit(t0: seq<Event>, t1: seq<Event>, t2: seq<Event>)
    requires t0 <= t1 && t1 <= t2
    ensures t2[|t0|..] == t1[|t0|..] + t2[|t1|..]
  {
  }

  lemma PrefixMembers(a: seq<Event>, b: seq<Event>)
    requires a <= b
    ensures forall e | e in a :: e in b
  {
    forall e | e in a ensures e in b {
      var i :| 0 <= i < |a| && a[i] == e;
      assert b[i] == e;
    }
  }

  lemma {:induction false} CheckedOutConcat(a: seq<Event>, b: seq<Event>)
    ensures CheckedOut(a + b) == CheckedOut(a) + CheckedOut(b)
    decreases |a|
  {
    if a != [] {
      assert (a + b)[0] == a[0] && (a + b)[1..] == a[1..] + b;
      CheckedOutConcat(a[1..], b);
      calc {
        CheckedOut(a + b);
        (if a[0].Op? && a[0].op.Checkout? then [a[0].op.path] else []) + CheckedOut(a[1..] + b);
        (if a[0].Op? && a[0].op.Checkout? then [a[0].op.path] else []) + CheckedOut(a[1..]) + CheckedOut(b);
        CheckedOut(a) + CheckedOut(b);
      }
    } else {
      assert a + b == b;
    }
  }

  lemma {:induction false} CheckedOutNone(es: seq<Event>)
    requires forall e | e in es :: !(e.Op? && e.op.Checkout?)
    ensures CheckedOut(es) == []
    decreases |es|
  {
    if es != [] {
      assert forall e | e in es[1..] :: e in es;
      CheckedOutNone(es[1..]);
    }
  }

  lemma OrderedConcat(x: seq<CommitRecord>, y: seq<CommitRecord>, k: nat)
    requires InStepOrder(x) && InStepOrder(y)
    requires forall c | c in x :: Rank(c.message) <= k
    requires forall c | c in y :: k <= Rank(c.message)
    ensures InStepOrder(x + y)
  {
    var z := x + y;
    forall i, j | 0 <= i < j < |z| ensures Rank(z[i].message) <= Rank(z[j].message) {
      if j < |x| {
      } else if i >= |x| {
        assert z[i] == y[i - |x|] && z[j] == y[j - |x|];
      } else {
        assert z[i] in x && z[j] in y;
      }
    }
  }

  lemma GrowsTrans(a: Repo, b: Repo, c: Repo, lo1: nat, hi1: nat, lo2: nat, hi2: nat)
    requires Grows(a, b, lo1, hi1) && Grows(b, c, lo2, hi2) && lo1 <= hi1 <= lo2 <= hi2
    ensures Grows(a, c, lo1, hi2)
  {
    var x := b.commits[|a.commits|..];
    var y := c.commits[|b.commits|..];
    assert c.commits[|a.commits|..] == x + y;
    OrderedConcat(x, y, hi1);
    assert forall d | d in x + y :: d in x || d in y;
  }

  lemma GrowsStill(r: Repo, r': Repo, k: nat)
    requires r.trace <= r'.trace && r'.commits == r.commits
    ensures Grows(r, r', k, k)
  {
    assert r'.commits[|r.commits|..] == [];
  }

  lemma AllLocalSplit(t0: seq<Event>, t1: seq<Event>, t2: seq<Event>)
    requires t0 <= t1 && t1 <= t2 && AllLocal(t1[|t0|..]) && AllLocal(t2[|t1|..])
    ensures AllLocal(t2[|t0|..])
  {
    SegmentSplit(t0, t1, t2);
  }

  lemma AllGitIsLocal(es: seq<Event>)
    requires AllGit(es)
    ensures AllLocal(es)
  {
  }

  lemma {:induction false} RunGrows(f: Fakes, r: Repo, es: seq<Event>, k: nat)
    requires NoCommits(es)
    ensures Grows(r, Run(f, r, es).0, k, k)
    ensures AllGit(es) ==> AllGit(Since(r.trace, Run(f, r, es).0))
  {
    RunIssuesUntilFailure(f, r, es);
    RunKeepsCommits(f, r, es);
    GrowsStill(r, Run(f, r, es).0, k);
    PrefixMembers(Attempted(f, es), es);
  }

  // ----- One copy step -----

  /**
   * A copy step only appends to the trace, issues only git operations and
   * makes at most one commit, with its own message.
   */
  lemma CopyThenCommitGrows(f: Fakes, r: Repo, prep: seq<Event>, msg: CommitMessage)
    requires NoCommits(prep) && AllGit(prep)
    ensures var r' := CopyThenCommit(f, r, prep, msg).0;
            Grows(r, r', Rank(msg), Rank(msg)) && AllGit(Since(r.trace, r'))
  {
    CopyThenCommitTrace(f, r, prep, msg);
    CopyThenCommitCommits(f, r, prep, msg);
    var r' := CopyThenCommit(f, r, prep, msg).0;
    PrefixMembers(Since(r.trace, r'), prep + [Op(Status), Op(Commit(msg))]);
    if r'.commits == r.commits {
      assert r'.commits[|r.commits|..] == [];
    } else {
      assert r'.commits[|r.commits|..] == [CommitRecord(msg, r.pending + Changes(f, prep))];
    }
  }

  /** `copyConfigurationFiles` commits at most once, and only a non-empty set of changes. */
  lemma ConfigStepCommitsOnlyWhenDirty(f: Fakes, r: Repo, w: bool, localPath: Path)
    ensures var r' := ConfigStep(f, r, w, localPath).0;
            || r'.commits == r.commits
            || (&& |r'.commits| == |r.commits| + 1
                && r'.commits[..|r.commits|] == r.commits
                && r'.commits[|r.commits|].message == PullInConfiguration
                && r'.commits[|r.commits|].changes != [])
  {
    CopyThenCommitCommits(f, r, ConfigOps(w, localPath), PullInConfiguration);
  }

  lemma RunPair(f: Fakes, r: Repo, a: Event, b: Event)
    ensures var r1 := Exec(f, r, a).0;
            var r2 := Exec(f, r1, b).0;
            Run(f, r, [a, b]) ==
              if a in f.failing then (r1, Some(a))
              else if b in f.failing then (r2, Some(b))
              else (r2, None)
  {
    var es := [a, b];
    assert es[0] == a && es[1..] == [b];
    var (r1, ok1) := Exec(f, r, a);
    if ok1 {
      assert [b][0] == b && [b][1..] == [];
      var (r2, ok2) := Exec(f, r1, b);
      assert Run(f, r1, [b]) == (if ok2 then (r2, None) else (r2, Some(b)));
    }
  }

  /**
   * `copyPantheonYml` always makes the "Copy pantheon.yml" commit first; on
   * success `build_step` is true afterwards, the rest of the file is the
   * default branch's, and the "Add build_step" commit follows exactly when the
   * flag was not already true.
   */
  lemma PantheonYmlStepOutcome(f: Fakes, r: Repo)
    ensures var (r', failed) := PantheonYmlStep(f, r);
            var checkout := Op(Checkout(PantheonYmlPath));
            var wasSet := f.defaultYml.buildStep == BuildStepTrue;
            && (failed.None? <==>
                  checkout !in f.failing && Op(Commit(CopyPantheonYml)) !in f.failing
                  && (!wasSet ==> Op(Commit(AddBuildStep)) !in f.failing))
            && (failed.None? ==>
                  && r'.pantheonYml == f.defaultYml.(buildStep := BuildStepTrue)
                  && r'.commits == r.commits
                       + [CommitRecord(CopyPantheonYml, r.pending + Touched(f, checkout.op))]
                       + (if wasSet then [] else [CommitRecord(AddBuildStep, [Written(PantheonYmlPath)])]))
            && (checkout in f.failing ==> r'.commits == r.commits)
  {
    var a, b := Op(Checkout(PantheonYmlPath)), Op(Commit(CopyPantheonYml));
    RunPair(f, r, a, b);
    if a !in f.failing && b !in f.failing {
      PantheonYmlStepSucceeds(f, r);
    }
  }

  /** The two commits of a successful pantheon.yml step, computed through the fake. */
  lemma PantheonYmlStepSucceeds(f: Fakes, r: Repo)
    requires Op(Checkout(PantheonYmlPath)) !in f.failing && Op(Commit(CopyPantheonYml)) !in f.failing
    ensures var r1 := Exec(f, r, Op(Checkout(PantheonYmlPath))).0;
            var r2 := Exec(f, r1, Op(Commit(CopyPantheonYml))).0;
            var r' := PantheonYmlStep(f, r).0;
            && r2.pantheonYml == f.defaultYml
            && r2.commits == r.commits + [CommitRecord(CopyPantheonYml, r.pending + Touched(f, Checkout(PantheonYmlPath)))]
            && (f.defaultYml.buildStep == BuildStepTrue ==> r' == r2)
            && (f.defaultYml.buildStep != BuildStepTrue ==>
                  && r'.trace == r2.trace + [Op(Commit(AddBuildStep))]
                  && r'.pantheonYml == f.defaultYml.(buildStep := BuildStepTrue)
                  && (Op(Commit(AddBuildStep)) !in f.failing ==>
                        r'.commits == r2.commits + [CommitRecord(AddBuildStep, [Written(PantheonYmlPath)])])
                  && (Op(Commit(AddBuildStep)) in f.failing ==> r'.commits == r2.commits))
  {
    var a, b := Op(Checkout(PantheonYmlPath)), Op(Commit(CopyPantheonYml));
    RunPair(f, r, a, b);
    var r1 := Exec(f, r, a).0;
    var r2 := Exec(f, r1, b).0;
    assert r1.pantheonYml == f.defaultYml && r1.pending == r.pending + Touched(f, a.op);
    assert r2.pantheonYml == r1.pantheonYml && r2.pending == [];
    var w := WrittenPantheonYml(r2, r2.pantheonYml.(buildStep := BuildStepTrue));
    assert w.pending == [Written(PantheonYmlPath)];
  }

  /** `copyPantheonYml` issues only git operations, the pantheon.yml checkout first, and commits with its two messages. */
  lemma PantheonYmlStepGrows(f: Fakes, r: Repo)
    ensures var r' := PantheonYmlStep(f, r).0;
            && Grows(r, r', 1, 2)
            && AllGit(Since(r.trace, r'))
            && |r'.trace| > |r.trace|
            && r'.trace[|r.trace|] == Op(Checkout(PantheonYmlPath))
  {
    var a, b := Op(Checkout(PantheonYmlPath)), Op(Commit(CopyPantheonYml));
    RunPair(f, r, a, b);
    var r1 := Exec(f, r, a).0;
    var r2 := Exec(f, r1, b).0;
    var r' := PantheonYmlStep(f, r).0;
    if a in f.failing {
      assert r' == r1;
      GrowsStill(r, r', 1);
      assert Since(r.trace, r') == [a];
    } else if b in f.failing {
      assert r' == r2;
      GrowsStill(r, r', 1);
      assert Since(r.trace, r') == [a, b];
    } else {
      PantheonYmlStepSucceeds(f, r);
      PantheonYmlStepSucceedsGrows(f, r);
    }
  }

  lemma PantheonYmlStepSucceedsGrows(f: Fakes, r: Repo)
    requires Op(Checkout(PantheonYmlPath)) !in f.failing && Op(Commit(CopyPantheonYml)) !in f.failing
    ensures var r' := PantheonYmlStep(f, r).0;
            && Grows(r, r', 1, 2)
            && AllGit(Since(r.trace, r'))
            && |r'.trace| > |r.trace|
            && r'.trace[|r.trace|] == Op(Checkout(PantheonYmlPath))
  {
    var a, b, c := Op(Checkout(PantheonYmlPath)), Op(Commit(CopyPantheonYml)), Op(Commit(AddBuildStep));
    var first := CommitRecord(CopyPantheonYml, r.pending + Touched(f, Checkout(PantheonYmlPath)));
    var second := CommitRecord(AddBuildStep, [Written(PantheonYmlPath)]);
    PantheonYmlStepAppends(f, r);
    var r' := PantheonYmlStep(f, r).0;
    var es := if r'.trace == r.trace + [a, b] then [a, b] else [a, b, c];
    var cs := if r'.commits == r.commits + [first] then [first] else [first, second];
    AppendedGrows(r, r', es, cs, 1, 2);
  }

  /** A successful `copyPantheonYml` adds two or three operations and one or two commits. */
  lemma PantheonYmlStepAppends(f: Fakes, r: Repo)
    requires Op(Checkout(PantheonYmlPath)) !in f.failing && Op(Commit(CopyPantheonYml)) !in f.failing
    ensures var r' := PantheonYmlStep(f, r).0;
            var a, b := Op(Checkout(PantheonYmlPath)), Op(Commit(CopyPantheonYml));
            var first := CommitRecord(CopyPantheonYml, r.pending + Touched(f, Checkout(PantheonYmlPath)));
            && (r'.trace == r.trace + [a, b] || r'.trace == r.trace + [a, b, Op(Commit(AddBuildStep))])
            && (r'.commits == r.commits + [first] ||
                r'.commits == r.commits + [first, CommitRecord(AddBuildStep, [Written(PantheonYmlPath)])])
  {
    var a, b := Op(Checkout(PantheonYmlPath)), Op(Commit(CopyPantheonYml));
    PantheonYmlStepSucceeds(f, r);
    var r2 := Exec(f, Exec(f, r, a).0, b).0;
    var r' := PantheonYmlStep(f, r).0;
    var first := CommitRecord(CopyPantheonYml, r.pending + Touched(f, Checkout(PantheonYmlPath)));
    AppendAssoc(r.trace, [a], [b]);
    if r' != r2 {
      AppendAssoc(r.trace, [a, b], [Op(Commit(AddBuildStep))]);
      AppendAssoc(r.commits, [first], [CommitRecord(AddBuildStep, [Written(PantheonYmlPath)])]);
    }
  }

  /** `r'` is `r` with `es` issued and `cs` committed. */
  lemma AppendedGrows(r: Repo, r': Repo, es: seq<Event>, cs: seq<CommitRecord>, lo: nat, hi: nat)
    requires r'.trace == r.trace + es && r'.commits == r.commits + cs
    requires InStepOrder(cs) && forall c | c in cs :: lo <= Rank(c.message) <= hi
    ensures Grows(r, r', lo, hi) && Since(r.trace, r') == es
  {
    assert r'.commits[|r.commits|..] == cs;
    assert r'.trace[|r.trace|..] == es;
  }

  // ----- Custom projects -----

  /** One directory: its checkout is the only one issued, and no move on a webroot site. */
  lemma CustomDirStepVisits(f: Fakes, r: Repo, w: bool, d: CustomDir)
    ensures var r' := CustomDirStep(f, r, w, d).0;
            && r.trace <= r'.trace
            && CheckedOut(Since(r.trace, r')) == [WebRootAware(w, d.path)]
            && (w ==> NoMoves(Since(r.trace, r')))
  {
    CustomDirStepIsCopy(f, r, w, d);
    CustomCopyVisits(f, r, w, d);
  }

  lemma CustomCopyVisits(f: Fakes, r: Repo, w: bool, d: CustomDir)
    ensures var r' := CopyThenCommit(f, r, CustomOps(w, d), CopyCustom(d.subDir, WebRootAware(w, d.path))).0;
            && r.trace <= r'.trace
            && CheckedOut(Since(r.trace, r')) == [WebRootAware(w, d.path)]
            && (w ==> NoMoves(Since(r.trace, r')))
  {
    var prep := CustomOps(w, d);
    var msg := CopyCustom(d.subDir, WebRootAware(w, d.path));
    var plan := prep + [Op(Status), Op(Commit(msg))];
    CopyThenCommitTrace(f, r, prep, msg);
    var r' := CopyThenCommit(f, r, prep, msg).0;
    var seg := Since(r.trace, r');
    assert seg[1..] <= plan[1..];
    PrefixMembers(seg[1..], plan[1..]);
    CheckedOutNone(seg[1..]);
    assert seg == [seg[0]] + seg[1..];
    CheckedOutConcat([seg[0]], seg[1..]);
    PrefixMembers(seg, plan);
  }

  /**
   * `copyCustomProjects` checks out every directory, modules before themes and
   * each list in order, whatever failed before it; on a webroot site it never
   * moves anything.
   */
  lemma {:induction false} CustomStepsVisitInOrder(f: Fakes, r: Repo, w: bool, items: seq<CustomDir>)
    ensures var r' := CustomSteps(f, r, w, items).0;
            && r.trace <= r'.trace
            && CheckedOut(Since(r.trace, r')) == VisitOrder(w, items)
            && (w ==> NoMoves(Since(r.trace, r')))
    decreases |items|
  {
    if items != [] {
      var init := items[..|items| - 1];
      var d := items[|items| - 1];
      assert items == init + [items[|items| - 1]];
      CustomStepsSnoc(f, r, w, init, items[|items| - 1]);
      CustomStepsVisitInOrder(f, r, w, init);
      var r1 := CustomSteps(f, r, w, init).0;
      var r2 := CustomDirStep(f, r1, w, d).0;
      CustomDirStepVisits(f, r1, w, d);
      SegmentSplit(r.trace, r1.trace, r2.trace);
      CheckedOutConcat(Since(r.trace, r1), Since(r1.trace, r2));
    }
  }

  /**
   * What copying custom projects does to the repository: only git operations,
   * and only non-empty commits with the custom-copy message.
   */
  predicate CustomGrowth(r: Repo, r': Repo) {
    && Grows(r, r', 3, 3)
    && AllGit(Since(r.trace, r'))
    && forall c | c in r'.commits[|r.commits|..] :: c.changes != []
  }

  lemma CustomGrowthTrans(r: Repo, r1: Repo, r2: Repo)
    requires CustomGrowth(r, r1) && CustomGrowth(r1, r2)
    ensures CustomGrowth(r, r2)
  {
    GrowsTrans(r, r1, r2, 3, 3, 3, 3);
    SegmentSplit(r.trace, r1.trace, r2.trace);
    assert r2.commits[|r.commits|..] == r1.commits[|r.commits|..] + r2.commits[|r1.commits|..];
  }

  lemma CustomDirStepGrows(f: Fakes, r: Repo, w: bool, d: CustomDir)
    ensures CustomGrowth(r, CustomDirStep(f, r, w, d).0)
  {
    var prep := CustomOps(w, d);
    var msg := CopyCustom(d.subDir, WebRootAware(w, d.path));
    CustomDirStepIsCopy(f, r, w, d);
    CopyThenCommitGrows(f, r, prep, msg);
    CopyThenCommitCommits(f, r, prep, msg);
  }

  /**
   * The commits of `copyCustomProjects` come after the earlier ones, carry the
   * custom-copy message and are never empty; it issues only git operations.
   */
  lemma {:induction false} CustomStepsGrow(f: Fakes, r: Repo, w: bool, items: seq<CustomDir>)
    ensures CustomGrowth(r, CustomSteps(f, r, w, items).0)
    decreases |items|
  {
    if items == [] {
      GrowsStill(r, r, 3);
    } else {
      var init := items[..|items| - 1];
      var r1 := CustomSteps(f, r, w, init).0;
      assert items == init + [items[|items| - 1]];
      CustomStepsSnoc(f, r, w, init, items[|items| - 1]);
      CustomStepsGrow(f, r, w, init);
      CustomDirStepGrows(f, r1, w, items[|items| - 1]);
      CustomGrowthTrans(r, r1, CustomSteps(f, r, w, items).0);
    }
  }

  /** The failure, if any, of the i-th directory's step, run after the directories before it. */
  function DirFailure(f: Fakes, r: Repo, w: bool, items: seq<CustomDir>, i: nat): Option<Event>
    requires i < |items|
  {
    CustomDirStep(f, CustomSteps(f, r, w, items[..i]).0, w, items[i]).1
  }

  /** How many directories' steps failed. */
  function FailedDirs(f: Fakes, r: Repo, w: bool, items: seq<CustomDir>): nat
    decreases |items|
  {
    if items == [] then 0
    else FailedDirs(f, r, w, items[..|items| - 1]) + if DirFailure(f, r, w, items, |items| - 1).Some? then 1 else 0
  }

  /** The steps of the directories before the last do not depend on the last. */
  lemma DirFailureInit(f: Fakes, r: Repo, w: bool, items: seq<CustomDir>, i: nat)
    requires i < |items| - 1
    ensures DirFailure(f, r, w, items[..|items| - 1], i) == DirFailure(f, r, w, items, i)
    ensures items[..|items| - 1][i] == items[i]
  {
    assert items[..|items| - 1][..i] == items[..i];
  }

  /** One warning per failing directory. */
  lemma {:induction false} CustomWarningsCount(f: Fakes, r: Repo, w: bool, items: seq<CustomDir>)
    ensures |CustomSteps(f, r, w, items).1| == FailedDirs(f, r, w, items) <= |items|
    decreases |items|
  {
    if items != [] {
      var init := items[..|items| - 1];
      assert items == init + [items[|items| - 1]];
      CustomStepsSnoc(f, r, w, init, items[|items| - 1]);
      CustomWarningsCount(f, r, w, init);
    }
  }

  /** A directory whose step failed is logged with its path and its failure. */
  lemma {:induction false} CustomWarningsCover(f: Fakes, r: Repo, w: bool, items: seq<CustomDir>)
    ensures forall i | 0 <= i < |items| && DirFailure(f, r, w, items, i).Some? ::
              CustomCopyFailed(items[i].subDir, WebRootAware(w, items[i].path), DirFailure(f, r, w, items, i).value)
                in CustomSteps(f, r, w, items).1
    decreases |items|
  {
    if items != [] {
      var init := items[..|items| - 1];
      assert items == init + [items[|items| - 1]];
      CustomStepsSnoc(f, r, w, init, items[|items| - 1]);
      CustomWarningsCover(f, r, w, init);
      forall i | 0 <= i < |items| - 1
        ensures DirFailure(f, r, w, init, i) == DirFailure(f, r, w, items, i) && init[i] == items[i]
      {
        DirFailureInit(f, r, w, items, i);
      }
    }
  }

  /** Every warning names a directory whose step failed, with that failure. */
  lemma {:induction false} CustomWarningsBlame(f: Fakes, r: Repo, w: bool, items: seq<CustomDir>)
    ensures forall x | x in CustomSteps(f, r, w, items).1 ::
              && x.CustomCopyFailed?
              && exists i :: 0 <= i < |items| && DirFailure(f, r, w, items, i) == Some(x.cause)
                             && x.subDir == items[i].subDir && x.path == WebRootAware(w, items[i].path)
    decreases |items|
  {
    if items != [] {
      var init := items[..|items| - 1];
      var n := |items| - 1;
      assert items == init + [items[n]];
      CustomStepsSnoc(f, r, w, init, items[n]);
      CustomWarningsBlame(f, r, w, init);
      forall x | x in CustomSteps(f, r, w, items).1
        ensures && x.CustomCopyFailed?
                && exists i :: 0 <= i < |items| && DirFailure(f, r, w, items, i) == Some(x.cause)
                               && x.subDir == items[i].subDir && x.path == WebRootAware(w, items[i].path)
      {
        if x in CustomSteps(f, r, w, init).1 {
          var i :| 0 <= i < |init| && DirFailure(f, r, w, init, i) == Some(x.cause)
                   && x.subDir == init[i].subDir && x.path == WebRootAware(w, init[i].path);
          DirFailureInit(f, r, w, items, i);
        } else {
          assert DirFailure(f, r, w, items, n) == Some(x.cause);
        }
      }
    }
  }

  /**
   * `copyCustomProjects` logs exactly one warning for each directory whose
   * copy failed, naming its path and its failure, and none for a directory
   * whose copy succeeded.
   */
  lemma CustomStepsWarnings(f: Fakes, r: Repo, w: bool, items: seq<CustomDir>)
    ensures var ws := CustomSteps(f, r, w, items).1;
            && |ws| == FailedDirs(f, r, w, items) <= |items|
            && (forall i | 0 <= i < |items| && DirFailure(f, r, w, items, i).Some? ::
                  CustomCopyFailed(items[i].subDir, WebRootAware(w, items[i].path), DirFailure(f, r, w, items, i).value) in ws)
            && (forall x | x in ws ::
                  && x.CustomCopyFailed?
                  && x.path in VisitOrder(w, items)
                  && exists i :: 0 <= i < |items| && DirFailure(f, r, w, items, i) == Some(x.cause)
                                 && x.subDir == items[i].subDir && x.path == WebRootAware(w, items[i].path))
  {
    CustomWarningsCount(f, r, w, items);
    CustomWarningsCover(f, r, w, items);
    CustomWarningsBlame(f, r, w, items);
    forall x | x in CustomSteps(f, r, w, items).1 ensures x.path in VisitOrder(w, items) {
      var i :| 0 <= i < |items| && x.path == WebRootAware(w, items[i].path);
      assert VisitOrder(w, items)[i] == x.path;
    }
  }

  // ----- settings.php -----

  /**
   * `copySettingsPhp` checks out settings.php first; the move under `web`
   * follows on a non-webroot site and never happens on a webroot site; at most
   * one non-empty commit is made.
   */
  lemma SettingsStepMovesOnlyWithoutWebroot(f: Fakes, r: Repo, w: bool)
    ensures var r' := SettingsStep(f, r, w).0;
            var checkout := Op(Checkout(WebRootAware(w, SettingsPhp)));
            && r.trace <= r'.trace
            && |Since(r.trace, r')| > 0
            && Since(r.trace, r')[0] == checkout
            && (w ==> NoMoves(Since(r.trace, r')))
            && (!w && checkout !in f.failing ==>
                  |Since(r.trace, r')| > 1 && Since(r.trace, r')[1] == Op(Move(SettingsPhp, [WebRoot] + SettingsPhp, true)))
            && (|| r'.commits == r.commits
                || (&& |r'.commits| == |r.commits| + 1
                    && r'.commits[..|r.commits|] == r.commits
                    && r'.commits[|r.commits|].message == CopySettingsPhp
                    && r'.commits[|r.commits|].changes != []))
  {
    SettingsStepIsCopy(f, r, w);
    SettingsCopyMoves(f, r, w);
  }

  lemma SettingsCopyMoves(f: Fakes, r: Repo, w: bool)
    ensures var r' := CopyThenCommit(f, r, SettingsOps(w), CopySettingsPhp).0;
            var checkout := Op(Checkout(WebRootAware(w, SettingsPhp)));
            && r.trace <= r'.trace
            && |Since(r.trace, r')| > 0
            && Since(r.trace, r')[0] == checkout
            && (w ==> NoMoves(Since(r.trace, r')))
            && (!w && checkout !in f.failing ==>
                  |Since(r.trace, r')| > 1 && Since(r.trace, r')[1] == Op(Move(SettingsPhp, [WebRoot] + SettingsPhp, true)))
            && (|| r'.commits == r.commits
                || (&& |r'.commits| == |r.commits| + 1
                    && r'.commits[..|r.commits|] == r.commits
                    && r'.commits[|r.commits|].message == CopySettingsPhp
                    && r'.commits[|r.commits|].changes != []))
  {
    var prep := SettingsOps(w);
    CopyThenCommitTrace(f, r, prep, CopySettingsPhp);
    CopyThenCommitCommits(f, r, prep, CopySettingsPhp);
    var r' := CopyThenCommit(f, r, prep, CopySettingsPhp).0;
    var plan := prep + [Op(Status), Op(Commit(CopySettingsPhp))];
    PrefixMembers(Since(r.trace, r'), plan);
    if !w && prep[0] !in f.failing {
      RunIssuesUntilFailure(f, r, prep);
      var a := Attempted(f, prep);
      assert prep[1..] == [prep[1]];
      assert a == [prep[0]] + Attempted(f, prep[1..]);
      assert |a| > 1;
    }
  }

  // ----- The whole run -----

  /** Push, build trigger, then the wait exactly when drush is to run, then `updb -y` before `cr`. */
  lemma PostPushActionsOrder(o: Options)
    ensures PostPushActions(o)[..2] == [Remote(PushTargetBranch), Remote(TriggerBuild)]
    ensures Remote(WaitForSyncCodeWorkflow(o.branch)) in PostPushActions(o) <==> o.runUpdb || o.runCr
    ensures Remote(RunDrushCommand("updb -y")) in PostPushActions(o) <==> o.runUpdb
    ensures Remote(RunDrushCommand("cr")) in PostPushActions(o) <==> o.runCr
    ensures o.runUpdb || o.runCr ==> PostPushActions(o)[2] == Remote(WaitForSyncCodeWorkflow(o.branch))
    ensures o.runUpdb && o.runCr ==>
              PostPushActions(o)[3..] == [Remote(RunDrushCommand("updb -y")), Remote(RunDrushCommand("cr"))]
  {
  }

  /** The operation after the branch creation: the configuration checkout when the directory exists. */
  function FirstCopyOp(localPath: Path, w: bool, scan: Scan): Event {
    if ConfigExists(localPath, w, scan) then Op(Checkout(WebRootAware(w, ConfigDir)))
    else Op(Checkout(PantheonYmlPath))
  }

  /** What the run leaves when it ends without an error. */
  predicate EndsWell(r: Repo, out: Outcome, o: Options) {
    var tail := [Remote(MigrateComposerJson)] + (if o.dryRun then [] else PostPushActions(o));
    out.error.None? ==>
      && |out.repo.trace| >= |tail|
      && out.repo.trace[|out.repo.trace| - |tail|..] == tail
      && (o.dryRun <==> PushSkipped in out.warnings)
  }

  /** A failing run reports one of the failing operations as its error. */
  predicate BlamesFailure(f: Fakes, out: Outcome) {
    out.error.Some? ==> out.error.value.Failed? && out.error.value.cause in f.failing
  }

  lemma PublishingShape(f: Fakes, r5: Repo, o: Options, ws: seq<Warning>)
    requires PushSkipped !in ws
    ensures var out := Publishing(f, r5, o, ws);
            && Grows(r5, out.repo, 4, 4)
            && (o.dryRun ==> AllLocal(Since(r5.trace, out.repo)))
            && EndsWell(r5, out, o)
            && BlamesFailure(f, out)
  {
    var out := Publishing(f, r5, o, ws);
    var (r6, ok6) := Exec(f, r5, Remote(MigrateComposerJson));
    GrowsStill(r5, r6, 4);
    assert Since(r5.trace, r6) == [Remote(MigrateComposerJson)];
    if ok6 && !o.dryRun {
      var es := PostPushActions(o);
      var (r7, e7) := Run(f, r6, es);
      RunGrows(f, r6, es, 4);
      GrowsTrans(r5, r6, r7, 4, 4, 4, 4);
      RunIssuesUntilFailure(f, r6, es);
      if e7.None? {
        AttemptedAllSucceed(f, es);
        assert r7.trace == r5.trace + [Remote(MigrateComposerJson)] + es;
      }
    }
  }

  lemma FinishingShape(f: Fakes, r3: Repo, w: bool, scan: Scan, o: Options, ws: seq<Warning>)
    requires PushSkipped !in ws
    ensures var out := Finishing(f, r3, w, scan, o, ws);
            && Grows(r3, out.repo, 3, 4)
            && (o.dryRun ==> AllLocal(Since(r3.trace, out.repo)))
            && EndsWell(r3, out, o)
            && BlamesFailure(f, out)
  {
    var out := Finishing(f, r3, w, scan, o, ws);
    var items := Flatten(CustomProjectsDirectories(scan.customModuleDirs, scan.customThemeDirs));
    var (r4, ws4) := CustomSteps(f, r3, w, items);
    var (r5, e5) := SettingsStep(f, r4, w);
    CustomAndSettingsGrow(f, r3, w, items);
    if e5.Some? {
      SettingsStepIsCopy(f, r4, w);
      RunIssuesUntilFailure(f, r4, SettingsOps(w));
      assert out == Outcome(r5, ws + ws4, AsError(e5));
      AllGitIsLocal(Since(r3.trace, r5));
    } else {
      CustomStepsWarnings(f, r3, w, items);
      assert PushSkipped !in ws + ws4;
      assert out == Publishing(f, r5, o, ws + ws4);
      PublishingShape(f, r5, o, ws + ws4);
      GrowsTrans(r3, r5, out.repo, 3, 4, 4, 4);
      if o.dryRun {
        AllGitIsLocal(Since(r3.trace, r5));
        AllLocalSplit(r3.trace, r5.trace, out.repo.trace);
      }
    }
  }

  lemma SettingsStepGrows(f: Fakes, r: Repo, w: bool)
    ensures Grows(r, SettingsStep(f, r, w).0, 4, 4) && AllGit(Since(r.trace, SettingsStep(f, r, w).0))
  {
    SettingsStepIsCopy(f, r, w);
    CopyThenCommitGrows(f, r, SettingsOps(w), CopySettingsPhp);
  }

  lemma CustomThenSettings(r3: Repo, r4: Repo, r5: Repo)
    requires CustomGrowth(r3, r4) && Grows(r4, r5, 4, 4) && AllGit(Since(r4.trace, r5))
    ensures Grows(r3, r5, 3, 4) && AllGit(Since(r3.trace, r5))
  {
    GrowsTrans(r3, r4, r5, 3, 3, 4, 4);
    SegmentSplit(r3.trace, r4.trace, r5.trace);
  }

  lemma CustomAndSettingsGrow(f: Fakes, r3: Repo, w: bool, items: seq<CustomDir>)
    ensures var r4 := CustomSteps(f, r3, w, items).0;
            var r5 := SettingsStep(f, r4, w).0;
            Grows(r3, r5, 3, 4) && AllGit(Since(r3.trace, r5))
  {
    var r4 := CustomSteps(f, r3, w, items).0;
    CustomStepsGrow(f, r3, w, items);
    SettingsStepGrows(f, r4, w);
    CustomThenSettings(r3, r4, SettingsStep(f, r4, w).0);
  }

  lemma CopyingShape(f: Fakes, r1: Repo, w: bool, localPath: Path, scan: Scan, o: Options)
    ensures var out := Copying(f, r1, w, localPath, scan, o);
            && Grows(r1, out.repo, 0, 4)
            && (o.dryRun ==> AllLocal(Since(r1.trace, out.repo)))
            && |out.repo.trace| > |r1.trace|
            && out.repo.trace[|r1.trace|] == FirstCopyOp(localPath, w, scan)
            && EndsWell(r1, out, o)
            && BlamesFailure(f, out)
  {
    var out := Copying(f, r1, w, localPath, scan, o);
    var (r2, ws2) := ConfigIfExists(f, r1, w, localPath, scan);
    if ConfigExists(localPath, w, scan) {
      CopyThenCommitGrows(f, r1, ConfigOps(w, localPath), PullInConfiguration);
      CopyThenCommitTrace(f, r1, ConfigOps(w, localPath), PullInConfiguration);
      AllGitIsLocal(Since(r1.trace, r2));
    } else {
      GrowsStill(r1, r2, 0);
    }
    var (r3, e3) := PantheonYmlStep(f, r2);
    PantheonYmlStepGrows(f, r2);
    AllGitIsLocal(Since(r2.trace, r3));
    GrowsTrans(r1, r2, r3, 0, 0, 1, 2);
    AllLocalSplit(r1.trace, r2.trace, r3.trace);
    if e3.None? {
      FinishingShape(f, r3, w, scan, o, ws2);
      GrowsTrans(r1, r3, out.repo, 0, 2, 3, 4);
      if o.dryRun {
        AllLocalSplit(r1.trace, r3.trace, out.repo.trace);
      }
    } else {
      PantheonYmlStepOutcome(f, r2);
      RunPair(f, r2, Op(Checkout(PantheonYmlPath)), Op(Commit(CopyPantheonYml)));
    }
  }

  /** A site that is not Drupal 8, or whose upstream is not supported, is refused before any operation. */
  lemma ConvertValidatesFirst(f: Fakes, r: Repo, w: bool, localPath: Path, site: Site,
                              supported: seq<string>, scan: Scan, o: Options)
    requires !Validated(site, supported)
    ensures var out := Convert(f, r, w, localPath, site, supported, scan, o);
            && out.repo == r
            && out.warnings == []
            && out.error == Some(if !site.isDrupal8 then NotDrupal8 else UnsupportedUpstream(site.upstreamId))
  {
  }

  /**
   * Every run that passes validation starts by creating the branch; the next
   * operation is the configuration checkout when `sites/default/config`
   * exists and the pantheon.yml checkout otherwise.
   */
  lemma ConvertStartsWithBranch(f: Fakes, r: Repo, w: bool, localPath: Path, site: Site,
                                supported: seq<string>, scan: Scan, o: Options)
    requires Validated(site, supported)
    ensures var out := Convert(f, r, w, localPath, site, supported, scan, o);
            var branch := Op(CreateBranchFromRemote(TargetUpstreamGitRemoteUrl));
            && r.trace <= out.repo.trace
            && |out.repo.trace| > |r.trace|
            && out.repo.trace[|r.trace|] == branch
            && (branch in f.failing <==> out.error == Some(Failed(branch)))
            && (branch !in f.failing ==>
                  |out.repo.trace| > |r.trace| + 1
                  && out.repo.trace[|r.trace| + 1] == FirstCopyOp(localPath, w, scan))
  {
    var branch := Op(CreateBranchFromRemote(TargetUpstreamGitRemoteUrl));
    var r1 := Exec(f, r, branch).0;
    if branch !in f.failing {
      CopyingShape(f, r1, w, localPath, scan, o);
    }
  }

  /**
   * The commits of a run come in the fixed step order: configuration,
   * pantheon.yml, build_step, custom projects, settings.php; with dry-run set
   * nothing is issued but git operations and the composer.json migration.
   */
  lemma ConvertCommitsInStepOrder(f: Fakes, r: Repo, w: bool, localPath: Path, site: Site,
                                  supported: seq<string>, scan: Scan, o: Options)
    ensures var out := Convert(f, r, w, localPath, site, supported, scan, o);
            && r.trace <= out.repo.trace
            && r.commits <= out.repo.commits
            && InStepOrder(out.repo.commits[|r.commits|..])
            && (o.dryRun ==> AllLocal(Since(r.trace, out.repo)))
  {
    var out := Convert(f, r, w, localPath, site, supported, scan, o);
    if !Validated(site, supported) {
      GrowsStill(r, r, 0);
      return;
    }
    var branch := Op(CreateBranchFromRemote(TargetUpstreamGitRemoteUrl));
    var (r1, ok1) := Exec(f, r, branch);
    GrowsStill(r, r1, 0);
    assert Since(r.trace, r1) == [branch];
    if ok1 {
      CopyingShape(f, r1, w, localPath, scan, o);
      GrowsTrans(r, r1, out.repo, 0, 0, 0, 4);
      if o.dryRun {
        AllLocalSplit(r.trace, r1.trace, out.repo.trace);
      }
    }
  }

  /**
   * A run without error ends with the composer.json migration followed, unless
   * it is a dry run, by exactly the post-push actions; the push-skipped
   * warning appears exactly on a dry run.
   */
  lemma ConvertEnding(f: Fakes, r: Repo, w: bool, localPath: Path, site: Site,
                      supported: seq<string>, scan: Scan, o: Options)
    ensures EndsWell(r, Convert(f, r, w, localPath, site, supported, scan, o), o)
  {
    if Validated(site, supported) {
      var branch := Op(CreateBranchFromRemote(TargetUpstreamGitRemoteUrl));
      var r1 := Exec(f, r, branch).0;
      CopyingShape(f, r1, w, localPath, scan, o);
    }
  }
}
