/**
 * The `conversion:composer` command as functions over the fake working copy:
 * one function per step of `ConvertToComposerSiteCommand::convert`, the whole
 * run as `Convert`, and the properties of each step. The class in
 * convert_command.dfy is proved to compute exactly these functions.
 */
module ConversionSteps {
  import opened Wrappers
  import opened Paths
  import opened GitWorkingCopy

  const TargetGitBranch: string := "conversion"
  const TargetUpstreamGitRemoteUrl: string := "https://github.com/pantheon-upstreams/drupal-recommended.git"

  /** `sites/default/config` and `sites/default/settings.php`, relative to the Drupal root. */
  const ConfigDir: Path := SitesDefault + ["config"]
  const SettingsPhp: Path := SitesDefault + ["settings.php"]

  /**
   * `isWebRootSite`: the memoised answer when there is one, otherwise the
   * `web_docroot` key of `pantheon.yml`, false when the key is absent.
   */
  function Layout(memo: Option<bool>, yml: PantheonYml): bool {
    if memo.Some? then memo.value else yml.webDocroot.GetOr(false)
  }

  // ----- Custom project directories -----

  datatype CustomDir = CustomDir(subDir: SubDir, path: Path)

  /** One entry of the `[subDir => directories]` array the command builds. */
  datatype DirGroup = DirGroup(subDir: SubDir, dirs: seq<Path>)

  function Tagged(g: DirGroup): (items: seq<CustomDir>)
    ensures |items| == |g.dirs|
    decreases |g.dirs|
  {
    if g.dirs == [] then []
    else Tagged(g.(dirs := g.dirs[..|g.dirs| - 1])) + [CustomDir(g.subDir, g.dirs[|g.dirs| - 1])]
  }

  lemma {:induction false} TaggedAt(g: DirGroup)
    ensures forall i :: 0 <= i < |g.dirs| ==> Tagged(g)[i] == CustomDir(g.subDir, g.dirs[i])
    decreases |g.dirs|
  {
    if g.dirs != [] {
      TaggedAt(g.(dirs := g.dirs[..|g.dirs| - 1]));
    }
  }

  /** The directories in the order the nested `foreach` visits them. */
  function Flatten(groups: seq<DirGroup>): seq<CustomDir>
    decreases |groups|
  {
    if groups == [] then [] else Flatten(groups[..|groups| - 1]) + Tagged(groups[|groups| - 1])
  }

  /** `array_filter` leaves nothing exactly when there is no directory to visit. */
  lemma {:induction false} FlattenEmpty(groups: seq<DirGroup>)
    ensures Flatten(groups) == [] <==> forall g | g in groups :: g.dirs == []
    decreases |groups|
  {
    if groups != [] {
      var init := groups[..|groups| - 1];
      FlattenEmpty(init);
      assert groups == init + [groups[|groups| - 1]];
      assert forall g | g in init :: g in groups;
    }
  }

  /** `getCustomProjectsDirectories`: module directories first, then theme directories. */
  function CustomProjectsDirectories(modules: seq<Path>, themes: seq<Path>): (groups: seq<DirGroup>)
    ensures var items := Flatten(groups);
            && |items| == |modules| + |themes|
            && (forall i :: 0 <= i < |modules| ==> items[i] == CustomDir(Modules, modules[i]))
            && (forall i :: 0 <= i < |themes| ==> items[|modules| + i] == CustomDir(Themes, themes[i]))
  {
    var groups := [DirGroup(Modules, modules), DirGroup(Themes, themes)];
    TaggedAt(groups[0]);
    TaggedAt(groups[1]);
    assert groups[..1] == [DirGroup(Modules, modules)];
    assert [DirGroup(Modules, modules)][..0] == [];
    assert Flatten(groups[..1]) == Tagged(groups[0]);
    assert Flatten(groups) == Tagged(groups[0]) + Tagged(groups[1]);
    groups
  }

  // ----- The steps -----

  /** `copyConfigurationFiles`: checkout, move into `config`, drop the `.htaccess`. */
  function ConfigOps(w: bool, localPath: Path): seq<Event> {
    var root := DrupalPath(localPath, w);
    [ Op(Checkout(WebRootAware(w, ConfigDir))),
      Op(Move(root + ConfigDir + ["*"], root + ["config"], false)),
      Op(Remove(WebRootAware(w, ConfigDir + [".htaccess"]), true)) ]
  }

  function ConfigStep(f: Fakes, r: Repo, w: bool, localPath: Path): (Repo, Option<Event>) {
    CopyThenCommit(f, r, ConfigOps(w, localPath), PullInConfiguration)
  }

  const BuildStepTrue: Option<YamlValue> := Some(YBool(true))

  /**
   * `copyPantheonYml`: checkout and commit unconditionally, then set
   * `build_step: true` and commit again unless it is already set.
   */
  function PantheonYmlStep(f: Fakes, r: Repo): (Repo, Option<Event>) {
    var (r1, failed) := Run(f, r, [Op(Checkout(PantheonYmlPath)), Op(Commit(CopyPantheonYml))]);
    if failed.Some? then (r1, failed)
    else if r1.pantheonYml.buildStep == BuildStepTrue then (r1, None)
    else
      var r2 := WrittenPantheonYml(r1, r1.pantheonYml.(buildStep := BuildStepTrue));
      var (r3, ok) := Exec(f, r2, Op(Commit(AddBuildStep)));
      (r3, if ok then None else Some(Op(Commit(AddBuildStep))))
  }

  /** The target of a custom project directory: `web/<modules|themes>/custom`. */
  function CustomTarget(subDir: SubDir): Path {
    [WebRoot, SubDirName(subDir), "custom"]
  }

  /** A checkout from the default branch, then a move when there is one. */
  function CheckoutMoveOps(rel: Path, move: Option<GitOp>): seq<Event> {
    [Op(Checkout(rel))] + if move.Some? then [Op(move.value)] else []
  }

  /**
   * The shape shared by `copyCustomProjects`' loop body and `copySettingsPhp`:
   * check out `rel`, move it when asked to, then commit if anything changed;
   * the first failing operation stops the rest.
   */
  function CheckoutMoveCommit(f: Fakes, r: Repo, rel: Path, move: Option<GitOp>, msg: CommitMessage): (Repo, Option<Event>) {
    var checkout := Op(Checkout(rel));
    var (r1, ok1) := Exec(f, r, checkout);
    if !ok1 then (r1, Some(checkout))
    else if move.None? then CommitIfDirty(f, r1, msg)
    else
      var (r2, ok2) := Exec(f, r1, Op(move.value));
      if !ok2 then (r2, Some(Op(move.value))) else CommitIfDirty(f, r2, msg)
  }

  /** It is a copy step: its preparation, then commit-if-dirty. */
  lemma CheckoutMoveCommitIsCopy(f: Fakes, r: Repo, rel: Path, move: Option<GitOp>, msg: CommitMessage)
    ensures CheckoutMoveCommit(f, r, rel, move, msg) == CopyThenCommit(f, r, CheckoutMoveOps(rel, move), msg)
  {
    var prep := CheckoutMoveOps(rel, move);
    CopyThenCommitFirst(f, r, prep, msg);
    var r1 := Exec(f, r, prep[0]).0;
    if move.None? {
      assert prep[1..] == [];
    } else {
      assert prep[1..] == [Op(move.value)];
      CopyThenCommitFirst(f, r1, prep[1..], msg);
      assert prep[1..][1..] == [];
    }
  }

  /** The move of a custom project directory, issued only on non-webroot sites. */
  function CustomMove(w: bool, d: CustomDir): Option<GitOp> {
    if w then None else Some(Move(WebRootAware(w, d.path) + ["*"], CustomTarget(d.subDir), false))
  }

  /** One iteration of `copyCustomProjects`. */
  function CustomDirStep(f: Fakes, r: Repo, w: bool, d: CustomDir): (Repo, Option<Event>) {
    var rel := WebRootAware(w, d.path);
    CheckoutMoveCommit(f, r, rel, CustomMove(w, d), CopyCustom(d.subDir, rel))
  }

  function CustomOps(w: bool, d: CustomDir): seq<Event> {
    CheckoutMoveOps(WebRootAware(w, d.path), CustomMove(w, d))
  }

  lemma CustomDirStepIsCopy(f: Fakes, r: Repo, w: bool, d: CustomDir)
    ensures CustomDirStep(f, r, w, d) == CopyThenCommit(f, r, CustomOps(w, d), CopyCustom(d.subDir, WebRootAware(w, d.path)))
  {
    var rel := WebRootAware(w, d.path);
    CheckoutMoveCommitIsCopy(f, r, rel, CustomMove(w, d), CopyCustom(d.subDir, rel));
  }

  /** The log entries that record swallowed failures and skipped pushes. */
  datatype Warning =
    | ConfigCopyFailed(cause: Event)
    | CustomCopyFailed(subDir: SubDir, path: Path, cause: Event)
    | PushSkipped

  /** The warning `copyCustomProjects` logs when copying `d` failed. */
  function CustomWarning(w: bool, d: CustomDir, failed: Option<Event>): seq<Warning> {
    if failed.Some? then [CustomCopyFailed(d.subDir, WebRootAware(w, d.path), failed.value)] else []
  }

  /** All iterations: a failure is logged and the next directory is still visited. */
  function CustomSteps(f: Fakes, r: Repo, w: bool, items: seq<CustomDir>): (Repo, seq<Warning>)
    decreases |items|
  {
    if items == [] then (r, [])
    else
      var prev := CustomSteps(f, r, w, items[..|items| - 1]);
      var d := items[|items| - 1];
      var step := CustomDirStep(f, prev.0, w, d);
      (step.0, prev.1 + CustomWarning(w, d, step.1))
  }

  /** One more directory for the custom-project loop: its step runs after all the earlier ones. */
  lemma CustomStepsSnoc(f: Fakes, r: Repo, w: bool, items: seq<CustomDir>, d: CustomDir)
    ensures var step := CustomDirStep(f, CustomSteps(f, r, w, items).0, w, d);
            CustomSteps(f, r, w, items + [d]) == (step.0, CustomSteps(f, r, w, items).1 + CustomWarning(w, d, step.1))
  {
    assert (items + [d])[..|items|] == items;
  }

  /** The move of settings.php under `web`, issued only on non-webroot sites. */
  function SettingsMove(w: bool): Option<GitOp> {
    if w then None else Some(Move(SettingsPhp, [WebRoot] + SettingsPhp, true))
  }

  /** `copySettingsPhp`. */
  function SettingsStep(f: Fakes, r: Repo, w: bool): (Repo, Option<Event>) {
    CheckoutMoveCommit(f, r, WebRootAware(w, SettingsPhp), SettingsMove(w), CopySettingsPhp)
  }

  function SettingsOps(w: bool): seq<Event> {
    CheckoutMoveOps(WebRootAware(w, SettingsPhp), SettingsMove(w))
  }

  lemma SettingsStepIsCopy(f: Fakes, r: Repo, w: bool)
    ensures SettingsStep(f, r, w) == CopyThenCommit(f, r, SettingsOps(w), CopySettingsPhp)
  {
    CheckoutMoveCommitIsCopy(f, r, WebRootAware(w, SettingsPhp), SettingsMove(w), CopySettingsPhp);
  }

  // ----- The whole command -----

  datatype Site = Site(isDrupal8: bool, upstreamId: string)

  datatype Options = Options(branch: string, dryRun: bool, runUpdb: bool, runCr: bool)

  /** What the filesystem and the project scanner report. */
  datatype Scan = Scan(existingDirs: set<Path>, customModuleDirs: seq<Path>, customThemeDirs: seq<Path>)

  datatype ConvertError = NotDrupal8 | UnsupportedUpstream(upstreamId: string) | Failed(cause: Event)

  datatype Outcome = Outcome(repo: Repo, warnings: seq<Warning>, error: Option<ConvertError>)

  /** Push, build trigger and, when asked for, the workflow wait and the drush commands. */
  function PostPushActions(o: Options): seq<Event> {
    [Remote(PushTargetBranch), Remote(TriggerBuild)]
    + if o.runUpdb || o.runCr then
        [Remote(WaitForSyncCodeWorkflow(o.branch))]
        + (if o.runUpdb then [Remote(RunDrushCommand("updb -y"))] else [])
        + (if o.runCr then [Remote(RunDrushCommand("cr"))] else [])
      else []
  }

  function Warned(failed: Option<Event>): seq<Warning> {
    if failed.Some? then [ConfigCopyFailed(failed.value)] else []
  }

  function AsError(failed: Option<Event>): Option<ConvertError> {
    if failed.Some? then Some(Failed(failed.value)) else None
  }

  predicate Validated(site: Site, supported: seq<string>) {
    site.isDrupal8 && site.upstreamId in supported
  }

  predicate ConfigExists(localPath: Path, w: bool, scan: Scan) {
    DrupalPath(localPath, w) + ConfigDir in scan.existingDirs
  }

  /** `convert`, for a site whose layout is `w`: validation, then the branch, then the copies. */
  function Convert(f: Fakes, r: Repo, w: bool, localPath: Path, site: Site, supported: seq<string>,
                   scan: Scan, o: Options): Outcome
  {
    if !site.isDrupal8 then Outcome(r, [], Some(NotDrupal8))
    else if site.upstreamId !in supported then Outcome(r, [], Some(UnsupportedUpstream(site.upstreamId)))
    else
      var branch := Op(CreateBranchFromRemote(TargetUpstreamGitRemoteUrl));
      var (r1, ok1) := Exec(f, r, branch);
      if !ok1 then Outcome(r1, [], Some(Failed(branch)))
      else Copying(f, r1, w, localPath, scan, o)
  }

  /** The configuration step when `sites/default/config` exists, its failure as a warning. */
  function ConfigIfExists(f: Fakes, r1: Repo, w: bool, localPath: Path, scan: Scan): (Repo, seq<Warning>)
  {
    if ConfigExists(localPath, w, scan) then
      var (r2, failed) := ConfigStep(f, r1, w, localPath); (r2, Warned(failed))
    else (r1, [])
  }

  /** The configuration files (when the directory exists) and pantheon.yml, then the rest. */
  function Copying(f: Fakes, r1: Repo, w: bool, localPath: Path, scan: Scan, o: Options): Outcome
  {
    var (r2, ws2) := ConfigIfExists(f, r1, w, localPath, scan);
    var (r3, e3) := PantheonYmlStep(f, r2);
    if e3.Some? then Outcome(r3, ws2, AsError(e3))
    else Finishing(f, r3, w, scan, o, ws2)
  }

  /** Custom projects, settings.php, the composer.json migration and, unless a dry run, the push. */
  function Finishing(f: Fakes, r3: Repo, w: bool, scan: Scan, o: Options, ws: seq<Warning>): Outcome
  {
    var items := Flatten(CustomProjectsDirectories(scan.customModuleDirs, scan.customThemeDirs));
    var (r4, ws4) := CustomSteps(f, r3, w, items);
    var (r5, e5) := SettingsStep(f, r4, w);
    if e5.Some? then Outcome(r5, ws + ws4, AsError(e5))
    else Publishing(f, r5, o, ws + ws4)
  }

  /** The composer.json migration, then the push and post-deploy commands unless a dry run. */
  function Publishing(f: Fakes, r5: Repo, o: Options, ws: seq<Warning>): Outcome
  {
    var (r6, ok6) := Exec(f, r5, Remote(MigrateComposerJson));
    if !ok6 then Outcome(r6, ws, Some(Failed(Remote(MigrateComposerJson))))
    else if o.dryRun then Outcome(r6, ws + [PushSkipped], None)
    else
      var (r7, e7) := Run(f, r6, PostPushActions(o));
      Outcome(r7, ws, AsError(e7))
  }
}
