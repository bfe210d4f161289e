/**
 * What `convert` does when an operation fails. A failure in a required step
 * (the branch, pantheon.yml, settings.php, the composer.json migration, the
 * push and what follows it) is thrown: the run ends right after the failing
 * operation and reports it. A failure while copying the configuration files
 * or a custom project directory is caught and logged, and the run goes on.
 */
module ConversionFailures {
  import opened Wrappers
  import opened Paths
  import opened GitWorkingCopy
  import opened ConversionSteps
  import opened ConversionProperties

  // ----- Vocabulary -----

  /**
   * A step that went from `r` to `r'` and reports `failed` failed on one of
   * `ops` that is injected to fail, and issued nothing after it.
   */
  predicate FailsOn(f: Fakes, r: Repo, r': Repo, failed: Option<Event>, ops: seq<Event>) {
    failed.Some? ==>
      && |r'.trace| > |r.trace|
      && r'.trace[|r'.trace| - 1] == failed.value
      && failed.value in ops
      && failed.value in f.failing
  }

  /** A run that ends with an error ended on a failing operation of `ops`, and issued nothing after it. */
  predicate AbortsOn(f: Fakes, r: Repo, out: Outcome, ops: seq<Event>) {
    out.error.Some? ==>
      && out.error.value.Failed?
      && FailsOn(f, r, out.repo, Some(out.error.value.cause), ops)
  }

  const Branch: Event := Op(CreateBranchFromRemote(TargetUpstreamGitRemoteUrl))

  /** The operations of `copyPantheonYml`. */
  const PantheonYmlOps: seq<Event> := [Op(Checkout(PantheonYmlPath)), Op(Commit(CopyPantheonYml)), Op(Commit(AddBuildStep))]

  /** The operations of `copySettingsPhp`. */
  function SettingsCopyOps(w: bool): seq<Event> {
    SettingsOps(w) + [Op(Status), Op(Commit(CopySettingsPhp))]
  }

  /** The migration, then the push and what follows it unless a dry run. */
  function PublishingOps(o: Options): seq<Event> {
    [Remote(MigrateComposerJson)] + if o.dryRun then [] else PostPushActions(o)
  }

  /** Every operation whose failure `convert` does not catch. */
  function RequiredOps(w: bool, o: Options): seq<Event> {
    [Branch] + PantheonYmlOps + SettingsCopyOps(w) + PublishingOps(o)
  }

  // ----- Steps -----

  lemma RunFailsOn(f: Fakes, r: Repo, es: seq<Event>)
    ensures var (r', failed) := Run(f, r, es);
            && r.trace <= r'.trace
            && FailsOn(f, r, r', failed, es)
  {
    RunIssuesUntilFailure(f, r, es);
    PrefixMembers(Attempted(f, es), es);
  }

  lemma CopyThenCommitFailsOn(f: Fakes, r: Repo, prep: seq<Event>, msg: CommitMessage)
    ensures var (r', failed) := CopyThenCommit(f, r, prep, msg);
            FailsOn(f, r, r', failed, prep + [Op(Status), Op(Commit(msg))])
  {
    RunFailsOn(f, r, prep);
  }

  /** `copyPantheonYml` fails only on one of its own operations, and stops there. */
  lemma PantheonYmlStepFailsOn(f: Fakes, r: Repo)
    ensures var (r', failed) := PantheonYmlStep(f, r);
            r.trace <= r'.trace && FailsOn(f, r, r', failed, PantheonYmlOps)
  {
    RunPair(f, r, Op(Checkout(PantheonYmlPath)), Op(Commit(CopyPantheonYml)));
    PantheonYmlStepGrows(f, r);
  }

  /** `copySettingsPhp` fails only on one of its own operations, and stops there. */
  lemma SettingsStepFailsOn(f: Fakes, r: Repo, w: bool)
    ensures var (r', failed) := SettingsStep(f, r, w);
            FailsOn(f, r, r', failed, SettingsCopyOps(w))
  {
    SettingsStepIsCopy(f, r, w);
    CopyThenCommitFailsOn(f, r, SettingsOps(w), CopySettingsPhp);
  }

  // ----- Stages -----

  /**
   * The migration and the push: any failure ends the run with that operation
   * as its error, and the run succeeds exactly when none of them fails.
   */
  lemma PublishingFailures(f: Fakes, r5: Repo, o: Options, ws: seq<Warning>)
    ensures var out := Publishing(f, r5, o, ws);
            && AbortsOn(f, r5, out, PublishingOps(o))
            && (out.error.None? <==> AllSucceed(f, PublishingOps(o)))
  {
    var (r6, ok6) := Exec(f, r5, Remote(MigrateComposerJson));
    if ok6 && !o.dryRun {
      RunFailsOn(f, r6, PostPushActions(o));
      RunIssuesUntilFailure(f, r6, PostPushActions(o));
    }
  }

  /**
   * From the custom projects on, the run ends only on a failure of
   * `copySettingsPhp` or of the publishing operations; when settings.php
   * fails, the run ends there and the migration is never issued.
   */
  lemma FinishingFailures(f: Fakes, r3: Repo, w: bool, scan: Scan, o: Options, ws: seq<Warning>)
    ensures var items := Flatten(CustomProjectsDirectories(scan.customModuleDirs, scan.customThemeDirs));
            var r4 := CustomSteps(f, r3, w, items).0;
            var (r5, e5) := SettingsStep(f, r4, w);
            var out := Finishing(f, r3, w, scan, o, ws);
            && r3.trace <= out.repo.trace
            && AbortsOn(f, r3, out, SettingsCopyOps(w) + PublishingOps(o))
            && (e5.Some? ==> out.error == Some(Failed(e5.value)) && out.repo == r5)
            && (Remote(MigrateComposerJson) in Since(r3.trace, out.repo) <==> e5.None?)
  {
    var items := Flatten(CustomProjectsDirectories(scan.customModuleDirs, scan.customThemeDirs));
    var r4 := CustomSteps(f, r3, w, items).0;
    var (r5, e5) := SettingsStep(f, r4, w);
    CustomAndSettingsGrow(f, r3, w, items);
    CustomStepsGrow(f, r3, w, items);
    SettingsStepFailsOn(f, r4, w);
    if e5.None? {
      PublishingFailures(f, r5, o, ws + CustomSteps(f, r3, w, items).1);
      PublishingMigratesFirst(f, r5, o, ws + CustomSteps(f, r3, w, items).1);
      var out := Publishing(f, r5, o, ws + CustomSteps(f, r3, w, items).1);
      SegmentSplit(r3.trace, r5.trace, out.repo.trace);
      assert Since(r5.trace, out.repo)[0] == Remote(MigrateComposerJson);
    }
  }

  /** The publishing stage issues the migration first. */
  lemma PublishingMigratesFirst(f: Fakes, r5: Repo, o: Options, ws: seq<Warning>)
    ensures var out := Publishing(f, r5, o, ws);
            && r5.trace <= out.repo.trace
            && |out.repo.trace| > |r5.trace|
            && out.repo.trace[|r5.trace|] == Remote(MigrateComposerJson)
  {
    var (r6, ok6) := Exec(f, r5, Remote(MigrateComposerJson));
    if ok6 && !o.dryRun {
      RunIssuesUntilFailure(f, r6, PostPushActions(o));
    }
  }

  /** The publishing stage adds at most the push-skipped warning. */
  lemma PublishingWarnings(f: Fakes, r5: Repo, o: Options, ws: seq<Warning>)
    ensures var out := Publishing(f, r5, o, ws);
            out.warnings == ws || out.warnings == ws + [PushSkipped]
  {
  }

  /** From the custom projects on, the warnings passed in are kept and none of those added is a configuration warning. */
  lemma FinishingWarnings(f: Fakes, r3: Repo, w: bool, scan: Scan, o: Options, ws: seq<Warning>)
    ensures var out := Finishing(f, r3, w, scan, o, ws);
            && ws <= out.warnings
            && forall x | x in out.warnings[|ws|..] :: !x.ConfigCopyFailed?
  {
    var items := Flatten(CustomProjectsDirectories(scan.customModuleDirs, scan.customThemeDirs));
    var (r4, ws4) := CustomSteps(f, r3, w, items);
    var r5 := SettingsStep(f, r4, w).0;
    CustomWarningsBlame(f, r3, w, items);
    PublishingWarnings(f, r5, o, ws + ws4);
    var out := Finishing(f, r3, w, scan, o, ws);
    var added := if out.warnings == ws + ws4 then ws4 else ws4 + [PushSkipped];
    AppendAssoc(ws, ws4, [PushSkipped]);
    assert out.warnings == ws + added;
    assert out.warnings[|ws|..] == added;
  }

  /**
   * A failure while copying the configuration files is logged as the first
   * warning, and only then; the run goes on with the pantheon.yml checkout.
   */
  lemma CopyingConfigWarning(f: Fakes, r1: Repo, w: bool, localPath: Path, scan: Scan, o: Options)
    ensures var (r2, failed) := ConfigStep(f, r1, w, localPath);
            var present := ConfigExists(localPath, w, scan);
            var warned := if present && failed.Some? then [ConfigCopyFailed(failed.value)] else [];
            var next := if present then r2 else r1;
            var out := Copying(f, r1, w, localPath, scan, o);
            && FailsOn(f, r1, r2, failed, ConfigOps(w, localPath) + [Op(Status), Op(Commit(PullInConfiguration))])
            && warned <= out.warnings
            && (forall x | x in out.warnings[|warned|..] :: !x.ConfigCopyFailed?)
            && next.trace <= out.repo.trace
            && |out.repo.trace| > |next.trace|
            && out.repo.trace[|next.trace|] == Op(Checkout(PantheonYmlPath))
  {
    CopyThenCommitFailsOn(f, r1, ConfigOps(w, localPath), PullInConfiguration);
    var (r2, ws2) := ConfigIfExists(f, r1, w, localPath, scan);
    var (r3, e3) := PantheonYmlStep(f, r2);
    PantheonYmlStepGrows(f, r2);
    if e3.None? {
      FinishingWarnings(f, r3, w, scan, o, ws2);
      FinishingFailures(f, r3, w, scan, o, ws2);
    }
  }

  /**
   * After the branch, the run ends only on a failure of `copyPantheonYml`,
   * `copySettingsPhp` or the publishing operations; when pantheon.yml fails,
   * the run ends there with that failure.
   */
  lemma CopyingFailures(f: Fakes, r1: Repo, w: bool, localPath: Path, scan: Scan, o: Options)
    ensures var r2 := ConfigIfExists(f, r1, w, localPath, scan).0;
            var e3 := PantheonYmlStep(f, r2).1;
            var out := Copying(f, r1, w, localPath, scan, o);
            && r1.trace <= out.repo.trace
            && AbortsOn(f, r1, out, PantheonYmlOps + SettingsCopyOps(w) + PublishingOps(o))
            && (e3.Some? ==> out.error == Some(Failed(e3.value)) && out.repo == PantheonYmlStep(f, r2).0)
  {
    var (r2, ws2) := ConfigIfExists(f, r1, w, localPath, scan);
    var (r3, e3) := PantheonYmlStep(f, r2);
    var out := Copying(f, r1, w, localPath, scan, o);
    var ops := PantheonYmlOps + SettingsCopyOps(w) + PublishingOps(o);
    ConfigIfExistsGrows(f, r1, w, localPath, scan);
    PantheonYmlStepFailsOn(f, r2);
    if e3.Some? {
      assert out == Outcome(r3, ws2, AsError(e3));
      AbortsOnWiden(f, r1, r2, out, PantheonYmlOps, ops);
    } else {
      assert out == Finishing(f, r3, w, scan, o, ws2);
      FinishingFailures(f, r3, w, scan, o, ws2);
      AbortsOnWiden(f, r1, r3, out, SettingsCopyOps(w) + PublishingOps(o), ops);
    }
  }

  /** An abort after `r'` is one after `r` when `r'` extends `r`, and on any larger set of operations. */
  lemma AbortsOnWiden(f: Fakes, r: Repo, r': Repo, out: Outcome, ops: seq<Event>, more: seq<Event>)
    requires r.trace <= r'.trace && AbortsOn(f, r', out, ops)
    requires forall e | e in ops :: e in more
    ensures AbortsOn(f, r, out, more)
  {
  }

  /** The optional configuration step only appends to the trace. */
  lemma ConfigIfExistsGrows(f: Fakes, r1: Repo, w: bool, localPath: Path, scan: Scan)
    ensures r1.trace <= ConfigIfExists(f, r1, w, localPath, scan).0.trace
  {
    if ConfigExists(localPath, w, scan) {
      CopyThenCommitTrace(f, r1, ConfigOps(w, localPath), PullInConfiguration);
    }
  }

  /**
   * `convert`'s failure policy: a validated run ends only on a failing
   * required operation and issues nothing after it, so failures in the
   * configuration and custom-project copies never end it; when no required
   * operation fails, the run completes.
   */
  lemma ConvertFailurePolicy(f: Fakes, r: Repo, w: bool, localPath: Path, site: Site,
                             supported: seq<string>, scan: Scan, o: Options)
    ensures var out := Convert(f, r, w, localPath, site, supported, scan, o);
            && (Validated(site, supported) ==> AbortsOn(f, r, out, RequiredOps(w, o)))
            && (Validated(site, supported) && AllSucceed(f, RequiredOps(w, o)) ==> out.error.None?)
  {
    if Validated(site, supported) && Branch !in f.failing {
      CopyingFailures(f, Exec(f, r, Branch).0, w, localPath, scan, o);
    }
  }

  /** A failed branch creation ends the run at once: nothing else is issued, committed or logged. */
  lemma ConvertBranchFailure(f: Fakes, r: Repo, w: bool, localPath: Path, site: Site,
                             supported: seq<string>, scan: Scan, o: Options)
    requires Validated(site, supported) && Branch in f.failing
    ensures var out := Convert(f, r, w, localPath, site, supported, scan, o);
            && out.repo.trace == r.trace + [Branch]
            && out.repo.commits == r.commits
            && out.warnings == []
            && out.error == Some(Failed(Branch))
  {
  }
}
