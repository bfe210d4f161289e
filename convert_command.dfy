/**
 * The `conversion:composer` command as an object: the memoised webroot flag,
 * the git working copy and the log of warnings are its state, and every step
 * method is proved to compute the matching function of ConversionSteps.
 */
module ConvertToComposerSiteCommand {
  import opened Wrappers
  import opened Paths
  import opened GitWorkingCopy
  import opened ConversionSteps

  /** Peels the first event off a run. */
  lemma RunFirst(f: Fakes, r: Repo, es: seq<Event>)
    requires es != []
    ensures var (r1, ok) := Exec(f, r, es[0]);
            Run(f, r, es) == if ok then Run(f, r1, es[1..]) else (r1, Some(es[0]))
  {
  }

  lemma TaggedSnoc(g: DirGroup, j: nat)
    requires j < |g.dirs|
    ensures Tagged(DirGroup(g.subDir, g.dirs[..j + 1])) == Tagged(DirGroup(g.subDir, g.dirs[..j])) + [CustomDir(g.subDir, g.dirs[j])]
  {
    assert g.dirs[..j + 1][..j] == g.dirs[..j];
  }

  lemma FlattenSnoc(groups: seq<DirGroup>, i: nat)
    requires i < |groups|
    ensures Flatten(groups[..i + 1]) == Flatten(groups[..i]) + Tagged(groups[i])
  {
    assert groups[..i + 1][..i] == groups[..i];
  }

  class Command {
    const git: FakeGit
    /** The local clone of the site. */
    const localPath: Path
    /** The memoised answer of `isWebRootSite`, unset until first asked. */
    var isWebRootSite: Option<bool>
    /** How many times `pantheon.yml` was parsed to answer `isWebRootSite`. */
    ghost var pantheonYmlReads: nat
    /** The warnings logged so far. */
    var warnings: seq<Warning>

    /** `pantheon.yml` has been parsed exactly when the answer is memoised, and at most once. */
    ghost predicate Valid()
      reads this
    {
      pantheonYmlReads <= 1 && (pantheonYmlReads == 1 <==> isWebRootSite.Some?)
    }

    constructor (git: FakeGit, localPath: Path)
      ensures this.git == git && this.localPath == localPath
      ensures isWebRootSite == None && warnings == []
      ensures Valid()
    {
      this.git := git;
      this.localPath := localPath;
      isWebRootSite := None;
      pantheonYmlReads := 0;
      warnings := [];
    }

    /**
     * `isWebRootSite`: parses `pantheon.yml` on the first call only; later
     * calls return the memoised answer even if the file has changed since.
     */
    method IsWebRootSite() returns (w: bool)
      requires Valid()
      modifies this`isWebRootSite, this`pantheonYmlReads
      ensures Valid()
      ensures w == Layout(old(isWebRootSite), git.pantheonYml)
      ensures isWebRootSite == Some(w) && pantheonYmlReads == 1
      ensures old(isWebRootSite).Some? ==> w == old(isWebRootSite).value
    {
      if isWebRootSite.Some? {
        return isWebRootSite.value;
      }
      pantheonYmlReads := pantheonYmlReads + 1;
      w := git.pantheonYml.webDocroot.GetOr(false);
      isWebRootSite := Some(w);
    }

    /** `getDrupalAbsolutePath`: the clone itself, or its `web` directory on a webroot site. */
    method DrupalAbsolutePath() returns (p: Path)
      requires Valid()
      modifies this`isWebRootSite, this`pantheonYmlReads
      ensures Valid()
      ensures isWebRootSite == Some(Layout(old(isWebRootSite), git.pantheonYml))
      ensures p == DrupalPath(localPath, Layout(old(isWebRootSite), git.pantheonYml))
    {
      var w := IsWebRootSite();
      p := if w then localPath + [WebRoot] else localPath;
    }

    /** `getWebRootAwareRelativePath`: `parts`, under `web` on a webroot site. */
    method WebRootAwareRelativePath(parts: Path) returns (p: Path)
      requires Valid()
      modifies this`isWebRootSite, this`pantheonYmlReads
      ensures Valid()
      ensures isWebRootSite == Some(Layout(old(isWebRootSite), git.pantheonYml))
      ensures p == WebRootAware(Layout(old(isWebRootSite), git.pantheonYml), parts)
    {
      var w := IsWebRootSite();
      p := if w then [WebRoot] + parts else parts;
    }

    /** `if (isAnythingToCommit()) commit(msg)`. */
    method CommitIfAnythingToCommit(msg: CommitMessage) returns (failed: Option<Event>)
      modifies git
      ensures (git.State(), failed) == CommitIfDirty(git.fakes, old(git.State()), msg)
    {
      var ok, dirty := git.IsAnythingToCommit();
      if !ok {
        return Some(Op(Status));
      }
      failed := None;
      if dirty {
        ok := git.Commit(msg);
        if !ok {
          failed := Some(Op(Commit(msg)));
        }
      }
    }

    /**
     * `copyConfigurationFiles`: a failure is logged as a warning and does not
     * stop the conversion.
     */
    method CopyConfigurationFiles()
      requires Valid()
      modifies this, git
      ensures Valid()
      ensures isWebRootSite == Some(Layout(old(isWebRootSite), old(git.pantheonYml)))
      ensures var (r', failed) := ConfigStep(git.fakes, old(git.State()), Layout(old(isWebRootSite), old(git.pantheonYml)), localPath);
              git.State() == r' && warnings == old(warnings) + Warned(failed)
    {
      ghost var f, r0 := git.fakes, git.State();
      ghost var w := Layout(isWebRootSite, git.pantheonYml);
      ghost var todo := ConfigOps(w, localPath);
      var source := WebRootAwareRelativePath(ConfigDir);
      var ok := git.Checkout(source);
      CopyThenCommitFirst(f, r0, todo, PullInConfiguration);
      if !ok {
        warnings := warnings + [ConfigCopyFailed(Op(Checkout(source)))];
        return;
      }
      ghost var r1 := git.State();
      todo := todo[1..];
      var root := DrupalAbsolutePath();
      ok := git.Move(root + ConfigDir + ["*"], root + ["config"], false);
      CopyThenCommitFirst(f, r1, todo, PullInConfiguration);
      if !ok {
        warnings := warnings + [ConfigCopyFailed(Op(Move(root + ConfigDir + ["*"], root + ["config"], false)))];
        return;
      }
      ghost var r2 := git.State();
      todo := todo[1..];
      var htaccess := WebRootAwareRelativePath(ConfigDir + [".htaccess"]);
      ok := git.Remove(htaccess, true);
      CopyThenCommitFirst(f, r2, todo, PullInConfiguration);
      if !ok {
        warnings := warnings + [ConfigCopyFailed(Op(Remove(htaccess, true)))];
        return;
      }
      assert todo[1..] == [];
      var failed := CommitIfAnythingToCommit(PullInConfiguration);
      warnings := warnings + Warned(failed);
    }

    /**
     * `copyPantheonYml`: checkout and commit, then set `build_step: true` and
     * commit again unless it is set already; a failure aborts the conversion.
     */
    method CopyPantheonYml() returns (failed: Option<Event>)
      modifies git
      ensures (git.State(), failed) == PantheonYmlStep(git.fakes, old(git.State()))
    {
      ghost var f, r0 := git.fakes, git.State();
      ghost var es := [Op(Checkout(PantheonYmlPath)), Op(Commit(CommitMessage.CopyPantheonYml))];
      var ok := git.Checkout(PantheonYmlPath);
      RunFirst(f, r0, es);
      if !ok {
        return Some(Op(Checkout(PantheonYmlPath)));
      }
      ghost var r1 := git.State();
      ok := git.Commit(CommitMessage.CopyPantheonYml);
      RunFirst(f, r1, es[1..]);
      assert es[1..][1..] == [];
      if !ok {
        return Some(Op(Commit(CommitMessage.CopyPantheonYml)));
      }
      var content := git.pantheonYml;
      if content.buildStep == BuildStepTrue {
        return None;
      }
      git.WritePantheonYml(content.(buildStep := BuildStepTrue));
      ok := git.Commit(AddBuildStep);
      failed := if ok then None else Some(Op(Commit(AddBuildStep)));
    }

    /** The body of the `copyCustomProjects` loop, up to the warning a failure leads to. */
    method CopyCustomProject(d: CustomDir) returns (relativePath: Path, failed: Option<Event>)
      requires Valid()
      modifies this`isWebRootSite, this`pantheonYmlReads, git
      ensures Valid()
      ensures isWebRootSite == Some(Layout(old(isWebRootSite), old(git.pantheonYml)))
      ensures relativePath == WebRootAware(Layout(old(isWebRootSite), old(git.pantheonYml)), d.path)
      ensures (git.State(), failed) == CustomDirStep(git.fakes, old(git.State()), Layout(old(isWebRootSite), old(git.pantheonYml)), d)
    {
      ghost var f, r0 := git.fakes, git.State();
      ghost var w := Layout(isWebRootSite, git.pantheonYml);
      relativePath := WebRootAwareRelativePath(d.path);
      var ok := git.Checkout(relativePath);
      if !ok {
        return relativePath, Some(Op(Checkout(relativePath)));
      }
      var targetPath := CustomTarget(d.subDir);
      var webRoot := IsWebRootSite();
      if !webRoot {
        ok := git.Move(relativePath + ["*"], targetPath, false);
        if !ok {
          return relativePath, Some(Op(Move(relativePath + ["*"], targetPath, false)));
        }
      }
      failed := CommitIfAnythingToCommit(CopyCustom(d.subDir, relativePath));
    }

    /** The layout the memo, or failing it `pantheon.yml`, gives is `w`. */
    ghost predicate LaidOut(w: bool)
      reads this, git
    {
      Valid() && Layout(isWebRootSite, git.pantheonYml) == w
    }

    /**
     * The working copy and the log are what copying `done`, in order, from
     * `r0` with the log at `ws0` leaves.
     */
    ghost predicate CopiedCustom(r0: Repo, w: bool, ws0: seq<Warning>, done: seq<CustomDir>)
      reads this, git
    {
      var (r', ws) := CustomSteps(git.fakes, r0, w, done);
      git.State() == r' && warnings == ws0 + ws
    }

    /**
     * `copyCustomProjects`: every directory of every group, in order; a
     * failure is logged and the next directory is still copied.
     */
    method CopyCustomProjects(groups: seq<DirGroup>)
      requires Valid()
      modifies this, git
      ensures LaidOut(Layout(old(isWebRootSite), old(git.pantheonYml)))
      ensures old(isWebRootSite).Some? ==> isWebRootSite == old(isWebRootSite)
      ensures var (r', ws) := CustomSteps(git.fakes, old(git.State()), Layout(old(isWebRootSite), old(git.pantheonYml)), Flatten(groups));
              git.State() == r' && warnings == old(warnings) + ws
    {
      ghost var r0, ws0 := git.State(), warnings;
      ghost var w := Layout(isWebRootSite, git.pantheonYml);
      ghost var memo := isWebRootSite;
      if forall g | g in groups :: g.dirs == [] {
        FlattenEmpty(groups);
        return;
      }
      var i := 0;
      ghost var done: seq<CustomDir> := [];
      assert ws0 + [] == ws0;
      while i < |groups|
        invariant 0 <= i <= |groups|
        invariant LaidOut(w) && (memo.Some? ==> isWebRootSite == memo)
        invariant done == Flatten(groups[..i])
        invariant CopiedCustom(r0, w, ws0, done)
      {
        FlattenSnoc(groups, i);
        done := CopyCustomGroup(groups[i], r0, w, ws0, done);
        i := i + 1;
      }
      assert groups[..i] == groups;
    }

    /** The inner loop of `copyCustomProjects`: the directories of one group, in order. */
    method CopyCustomGroup(g: DirGroup, ghost r0: Repo, ghost w: bool, ghost ws0: seq<Warning>, ghost done: seq<CustomDir>)
      returns (ghost done': seq<CustomDir>)
      requires LaidOut(w) && CopiedCustom(r0, w, ws0, done)
      modifies this, git
      ensures LaidOut(w) && (old(isWebRootSite).Some? ==> isWebRootSite == old(isWebRootSite))
      ensures done' == done + Tagged(g) && CopiedCustom(r0, w, ws0, done')
    {
      ghost var memo := isWebRootSite;
      var j := 0;
      done' := done;
      assert done + Tagged(DirGroup(g.subDir, g.dirs[..0])) == done;
      while j < |g.dirs|
        invariant 0 <= j <= |g.dirs|
        invariant LaidOut(w) && (memo.Some? ==> isWebRootSite == memo)
        invariant done' == done + Tagged(DirGroup(g.subDir, g.dirs[..j]))
        invariant CopiedCustom(r0, w, ws0, done')
      {
        TaggedSnoc(g, j);
        var d := CustomDir(g.subDir, g.dirs[j]);
        AppendAssoc(done, Tagged(DirGroup(g.subDir, g.dirs[..j])), [d]);
        done' := CopyCustomDir(d, r0, w, ws0, done');
        j := j + 1;
      }
      assert g.dirs[..j] == g.dirs;
    }

    /** The body of the inner loop: copy one directory, and log its failure. */
    method CopyCustomDir(d: CustomDir, ghost r0: Repo, ghost w: bool, ghost ws0: seq<Warning>, ghost done: seq<CustomDir>)
      returns (ghost done': seq<CustomDir>)
      requires LaidOut(w) && CopiedCustom(r0, w, ws0, done)
      modifies this, git
      ensures LaidOut(w) && isWebRootSite == Some(w)
      ensures done' == done + [d] && CopiedCustom(r0, w, ws0, done')
    {
      ghost var before := CustomSteps(git.fakes, r0, w, done);
      ghost var failed := TryCopyCustomProject(d);
      CustomStepsSnoc(git.fakes, r0, w, done, d);
      AppendAssoc(ws0, before.1, CustomWarning(w, d, failed));
      done' := done + [d];
    }

    /** One directory of the `copyCustomProjects` loop: a failure is logged as a warning. */
    method TryCopyCustomProject(d: CustomDir) returns (ghost failed: Option<Event>)
      requires Valid()
      modifies this, git
      ensures Valid() && isWebRootSite == Some(Layout(old(isWebRootSite), old(git.pantheonYml)))
      ensures (git.State(), failed) == CustomDirStep(git.fakes, old(git.State()), Layout(old(isWebRootSite), old(git.pantheonYml)), d)
      ensures warnings == old(warnings) + CustomWarning(Layout(old(isWebRootSite), old(git.pantheonYml)), d, failed)
    {
      var relativePath, error := CopyCustomProject(d);
      if error.Some? {
        warnings := warnings + [CustomCopyFailed(d.subDir, relativePath, error.value)];
      }
      failed := error;
    }

    /**
     * `copySettingsPhp`: on a non-webroot site the file is moved under `web`;
     * a failure aborts the conversion.
     */
    method CopySettingsPhp() returns (failed: Option<Event>)
      requires Valid()
      modifies this`isWebRootSite, this`pantheonYmlReads, git
      ensures Valid()
      ensures isWebRootSite == Some(Layout(old(isWebRootSite), old(git.pantheonYml)))
      ensures (git.State(), failed) == SettingsStep(git.fakes, old(git.State()), Layout(old(isWebRootSite), old(git.pantheonYml)))
    {
      var settingsPhpFilePath := WebRootAwareRelativePath(SettingsPhp);
      var ok := git.Checkout(settingsPhpFilePath);
      if !ok {
        return Some(Op(Checkout(settingsPhpFilePath)));
      }
      var webRoot := IsWebRootSite();
      if !webRoot {
        ok := git.Move(settingsPhpFilePath, [WebRoot] + SettingsPhp, true);
        if !ok {
          return Some(Op(Move(settingsPhpFilePath, [WebRoot] + SettingsPhp, true)));
        }
      }
      failed := CommitIfAnythingToCommit(CommitMessage.CopySettingsPhp);
    }

    /** Push, build trigger, and the optional wait and drush commands. */
    method PushAndDeploy(o: Options) returns (failed: Option<Event>)
      modifies git
      ensures (git.State(), failed) == Run(git.fakes, old(git.State()), PostPushActions(o))
    {
      ghost var f := git.fakes;
      ghost var todo := PostPushActions(o);
      var ok := git.Call(PushTargetBranch);
      RunFirst(f, old(git.State()), todo);
      if !ok {
        return Some(Remote(PushTargetBranch));
      }
      todo := todo[1..];
      ghost var r1 := git.State();
      ok := git.Call(TriggerBuild);
      RunFirst(f, r1, todo);
      if !ok {
        return Some(Remote(TriggerBuild));
      }
      todo := todo[1..];
      if o.runUpdb || o.runCr {
        ghost var r2 := git.State();
        ok := git.Call(WaitForSyncCodeWorkflow(o.branch));
        RunFirst(f, r2, todo);
        if !ok {
          return Some(Remote(WaitForSyncCodeWorkflow(o.branch)));
        }
        todo := todo[1..];
        if o.runUpdb {
          ghost var r3 := git.State();
          ok := git.Call(RunDrushCommand("updb -y"));
          RunFirst(f, r3, todo);
          if !ok {
            return Some(Remote(RunDrushCommand("updb -y")));
          }
          todo := todo[1..];
        }
        if o.runCr {
          ghost var r4 := git.State();
          ok := git.Call(RunDrushCommand("cr"));
          RunFirst(f, r4, todo);
          if !ok {
            return Some(Remote(RunDrushCommand("cr")));
          }
          todo := todo[1..];
        }
      }
      assert todo == [];
      failed := None;
    }

    /**
     * `convert`: validation, the layout check that fixes the memo, the branch,
     * the copy steps, the composer.json migration and, unless a dry run, the
     * push and post-deploy commands.
     */
    method Convert(site: Site, supported: seq<string>, scan: Scan, o: Options) returns (error: Option<ConvertError>)
      requires Valid()
      modifies this, git
      ensures Valid()
      ensures var out := ConversionSteps.Convert(git.fakes, old(git.State()), Layout(old(isWebRootSite), old(git.pantheonYml)),
                                                 localPath, site, supported, scan, o);
              git.State() == out.repo && warnings == old(warnings) + out.warnings && error == out.error
    {
      if !site.isDrupal8 {
        return Some(NotDrupal8);
      }
      if site.upstreamId !in supported {
        return Some(UnsupportedUpstream(site.upstreamId));
      }
      ghost var f, ws0 := git.fakes, warnings;
      ghost var w := Layout(isWebRootSite, git.pantheonYml);
      var drupalRoot := DrupalAbsolutePath();
      var isDefaultConfigFilesExist := drupalRoot + ConfigDir in scan.existingDirs;
      var customProjectsDirs := CustomProjectsDirectories(scan.customModuleDirs, scan.customThemeDirs);
      var ok := git.CreateLocalGitBranchFromRemote(TargetUpstreamGitRemoteUrl);
      if !ok {
        return Some(Failed(Op(CreateBranchFromRemote(TargetUpstreamGitRemoteUrl))));
      }
      ghost var r1 := git.State();
      error := CopyingStage(isDefaultConfigFilesExist, customProjectsDirs, scan, o);
      assert isDefaultConfigFilesExist == ConfigExists(localPath, w, scan);
    }

    /** The copies of `convert` after the branch exists, with the layout memoised. */
    method CopyingStage(configExists: bool, groups: seq<DirGroup>, scan: Scan, o: Options) returns (error: Option<ConvertError>)
      requires Valid() && isWebRootSite.Some?
      requires configExists == ConfigExists(localPath, isWebRootSite.value, scan)
      requires groups == CustomProjectsDirectories(scan.customModuleDirs, scan.customThemeDirs)
      modifies this, git
      ensures Valid()
      ensures var out := Copying(git.fakes, old(git.State()), old(isWebRootSite.value), localPath, scan, o);
              git.State() == out.repo && warnings == old(warnings) + out.warnings && error == out.error
    {
      ghost var f, r1, ws0 := git.fakes, git.State(), warnings;
      ghost var w := isWebRootSite.value;
      if configExists {
        CopyConfigurationFiles();
      }
      ghost var c := ConfigIfExists(f, r1, w, localPath, scan);
      assert git.State() == c.0 && warnings == ws0 + c.1;
      var failed := CopyPantheonYml();
      if failed.Some? {
        return Some(Failed(failed.value));
      }
      error := FinishingStage(groups, scan, o, ws0, c.1);
    }

    /**
     * Custom projects and settings.php, then the migration and the push;
     * `ws` are the warnings of the earlier steps, logged after `ws0`.
     */
    method FinishingStage(groups: seq<DirGroup>, scan: Scan, o: Options, ghost ws0: seq<Warning>, ghost ws: seq<Warning>)
      returns (error: Option<ConvertError>)
      requires Valid() && isWebRootSite.Some? && warnings == ws0 + ws
      requires groups == CustomProjectsDirectories(scan.customModuleDirs, scan.customThemeDirs)
      modifies this, git
      ensures Valid()
      ensures var out := Finishing(git.fakes, old(git.State()), old(isWebRootSite.value), scan, o, ws);
              git.State() == out.repo && warnings == ws0 + out.warnings && error == out.error
    {
      ghost var cs := CustomSteps(git.fakes, git.State(), Layout(isWebRootSite, git.pantheonYml), Flatten(groups));
      CopyCustomProjects(groups);
      AppendAssoc(ws0, ws, cs.1);
      var failed := CopySettingsPhp();
      if failed.Some? {
        return Some(Failed(failed.value));
      }
      error := PublishingStage(o, ws0, ws + cs.1);
    }

    /** The composer.json migration, then the push and post-deploy commands unless a dry run. */
    method PublishingStage(o: Options, ghost ws0: seq<Warning>, ghost ws: seq<Warning>) returns (error: Option<ConvertError>)
      requires warnings == ws0 + ws
      modifies this`warnings, git
      ensures var out := Publishing(git.fakes, old(git.State()), o, ws);
              git.State() == out.repo && warnings == ws0 + out.warnings && error == out.error
    {
      var ok := git.Call(MigrateComposerJson);
      if !ok {
        return Some(Failed(Remote(MigrateComposerJson)));
      }
      if !o.dryRun {
        var failed := PushAndDeploy(o);
        error := if failed.Some? then Some(Failed(failed.value)) else None;
      } else {
        warnings := warnings + [PushSkipped];
        AppendAssoc(ws0, ws, [PushSkipped]);
        error := None;
      }
    }
  }
}
