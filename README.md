# Terminus conversion tools: `conversion:composer` and `conversion:advise`

A Dafny model of two commands of the Terminus conversion tools plugin.

`conversion:composer` (`ConvertToComposerSiteCommand`) converts a Drupal 8 site to a Composer-managed site. It validates the site. It creates a `conversion` branch from the drupal-recommended upstream. Then it copies from the default branch, in order:
- the configuration files;
- `pantheon.yml`, with `build_step: true`;
- the custom modules and themes;
- `settings.php`.

Next it migrates `composer.json`. Unless this is a dry run, it then pushes, triggers a build and runs the optional post-deploy drush commands.

`conversion:advise` (`AdviseCommand`) reads what it knows about a site. From that it prints the upstream, upgrade notices and one piece of advice chosen by the site's upstream.

The model has two layers:
- **Pure functions.** These describe each step over an in-memory fake of the git working copy. The fake records every operation issued, the uncommitted changes, the commit log and the working content of `pantheon.yml`. Failures are injected: the operations in `Fakes.failing` fail. Lemmas prove the command's promises about these functions.
- **Command classes.** These mirror the PHP objects: the memoised `isWebRootSite` field, the log of warnings, the output lines. Their methods are proved to compute exactly those functions.

Files:
- `wrappers.dfy`: `Option`, plus an associativity helper for sequences.
- `paths.dfy`: paths as segment lists; `getWebRootAwareRelativePath` and `getDrupalAbsolutePath`.
- `git_working_copy.dfy`: the fake working copy (`Exec`, `Run`, `CopyThenCommit`) and the `FakeGit` class.
- `conversion_steps.dfy`: one function per step of `convert`, and `Convert` itself.
- `conversion_properties.dfy`: what each step and the whole run guarantee.
- `conversion_failures.dfy`: what `convert` does when an operation fails.
- `convert_command.dfy`: the `Command` class of `conversion:composer`.
- `advice_rules.dfy`: the advice as a pure decision, the extra-package filter, and their properties.
- `advise_command.dfy`: the `Command` class of `conversion:advise`.

How `convert` handles failures:
- A failing required step throws and ends the command.
- Failures in `copyConfigurationFiles` and in each custom-project directory are caught and logged as warnings.

`Outcome` carries the warnings logged and the error that ended the run.

## Model

| member | source | states |
|---|---|---|
| Paths.WebRootAware | src/Commands/ConvertToComposerSiteCommand.php:191-196 | the relative path ends with the given parts and has exactly one extra leading `web` segment on a webroot site, none otherwise |
| Paths.WebRootAwareIff | src/Commands/ConvertToComposerSiteCommand.php:191-196 | the path is `web` followed by the parts if and only if the site is webroot-based, and the bare parts if and only if it is not |
| Paths.DrupalPath | src/Commands/ConvertToComposerSiteCommand.php:174-179 | the Drupal root starts with the local copy's path and adds a final `web` segment exactly on a webroot site |
| Paths.DrupalPathIff | src/Commands/ConvertToComposerSiteCommand.php:174-179 | the Drupal root is the local copy plus `web` if and only if the site is webroot-based |
| GitWorkingCopy.Exec | src/Commands/ConvertToComposerSiteCommand.php:307-318 | every git call is recorded; it fails exactly when injected to, and a failure changes nothing else; only a commit changes the log, and it records and clears the pending changes |
| GitWorkingCopy.Run | src/Commands/ConvertToComposerSiteCommand.php:308-316 | a sequence of throwing calls; `RunIssuesUntilFailure` proves it issues exactly the operations up to the first failing one and reports it |
| GitWorkingCopy.CommitIfDirty | src/Commands/ConvertToComposerSiteCommand.php:318-320 | status, then a commit only when the tree is dirty; `CommitIfDirtyTwice` proves a second call right after never commits |
| GitWorkingCopy.CopyThenCommit | src/Commands/ConvertToComposerSiteCommand.php:308-320 | a copy step; `CopyThenCommitTrace` and `CopyThenCommitCommits` prove its operation order and that it commits exactly when everything succeeds and something changed |
| GitWorkingCopy.RunIssuesUntilFailure | src/Commands/ConvertToComposerSiteCommand.php:307-316 | a sequence of throwing git calls issues exactly the operations up to and including the first failing one; it fails if and only if some operation fails, and it reports that operation |
| GitWorkingCopy.CopyThenCommitTrace | src/Commands/ConvertToComposerSiteCommand.php:307-321 | a copy step issues its preparation, then the status query, then the commit, in that order and stopping early; its first operation is always issued |
| GitWorkingCopy.CopyThenCommitCommits | src/Commands/ConvertToComposerSiteCommand.php:317-321 | a copy step commits at most once: exactly when every operation succeeds and the tree is dirty; the commit holds every pending change; the step fails if and only if an operation fails |
| GitWorkingCopy.CommitIfDirtyTwice | src/Commands/ConvertToComposerSiteCommand.php:317-318 | right after a successful commit-if-dirty, a second one never commits |
| ConversionSteps.Layout | src/Commands/ConvertToComposerSiteCommand.php:154-164 | the memoised answer, else `web_docroot` defaulting to false; `Command.IsWebRootSite` is proved to return it and to parse `pantheon.yml` only once |
| ConversionSteps.ConfigStep | src/Commands/ConvertToComposerSiteCommand.php:305-326 | `copyConfigurationFiles` as a copy step; `ConfigStepCommitsOnlyWhenDirty` and `CopyingConfigWarning` prove it commits at most once, non-empty, and that its failure is only a warning |
| ConversionSteps.PantheonYmlStep | src/Commands/ConvertToComposerSiteCommand.php:335-353 | `copyPantheonYml`; `PantheonYmlStepOutcome` proves when it succeeds, its commits and the final `build_step: true` |
| ConversionSteps.CustomDirStep | src/Commands/ConvertToComposerSiteCommand.php:374-390 | one custom-project directory; `CustomDirStepVisits` and `CustomDirStepGrows` prove its single checkout and its commits |
| ConversionSteps.CustomSteps | src/Commands/ConvertToComposerSiteCommand.php:372-396 | the custom-project loop; `CustomStepsVisitInOrder` and `CustomStepsWarnings` prove every directory is visited in order and exactly the failing ones are logged |
| ConversionSteps.SettingsStep | src/Commands/ConvertToComposerSiteCommand.php:407-425 | `copySettingsPhp`; `SettingsStepMovesOnlyWithoutWebroot` proves the checkout first and the move exactly without a webroot |
| ConversionSteps.PostPushActions | src/Commands/ConvertToComposerSiteCommand.php:127-138 | the post-push actions; `PostPushActionsOrder` proves their order and which options add which |
| ConversionSteps.Convert | src/Commands/ConvertToComposerSiteCommand.php:60-145 | the whole command; `ConvertValidatesFirst`, `ConvertCommitsInStepOrder`, `ConvertEnding` and `ConvertFailurePolicy` prove validation first, commit order, the ending and the failure policy |
| ConversionSteps.Copying | src/Commands/ConvertToComposerSiteCommand.php:105-141 | the steps after the branch; `CopyingShape` and `CopyingFailures` prove the first operation, commit order and which failures end the run |
| ConversionSteps.Finishing | src/Commands/ConvertToComposerSiteCommand.php:116-141 | the steps from the custom projects on; `FinishingShape` and `FinishingFailures` prove commit order and that a settings.php failure ends the run before the migration |
| ConversionSteps.Publishing | src/Commands/ConvertToComposerSiteCommand.php:119-141 | the migration and the push; `PublishingShape` and `PublishingFailures` prove the action order and that it succeeds exactly when none of its operations fails |
| ConversionSteps.TaggedAt | src/Commands/ConvertToComposerSiteCommand.php:372-373 | the inner `foreach` visits the i-th directory of a group as the i-th item, tagged with the group's sub-directory |
| ConversionSteps.FlattenEmpty | src/Commands/ConvertToComposerSiteCommand.php:365-369 | there is nothing to copy if and only if every group is empty (the `array_filter` count test) |
| ConversionSteps.CustomProjectsDirectories | src/Commands/ConvertToComposerSiteCommand.php:281-300 | the visiting order is every module directory in scan order, then every theme directory in scan order, each tagged with its sub-directory |
| ConversionSteps.CheckoutMoveCommitIsCopy | src/Commands/ConvertToComposerSiteCommand.php:410-424 | checkout, optional move, then commit-if-dirty is a copy step over the checkout and the move |
| ConversionSteps.CustomDirStepIsCopy | src/Commands/ConvertToComposerSiteCommand.php:376-391 | one custom-project directory is a copy step committed as "Copy custom <subDir> from <path>" |
| ConversionSteps.SettingsStepIsCopy | src/Commands/ConvertToComposerSiteCommand.php:410-424 | `copySettingsPhp` is a copy step committed as "Copy settings.php" |
| ConversionProperties.CopyThenCommitGrows | src/Commands/ConvertToComposerSiteCommand.php:307-321 | a copy step only appends to the trace and the log; it issues only git operations; its commits all carry its own message |
| ConversionProperties.ConfigStepCommitsOnlyWhenDirty | src/Commands/ConvertToComposerSiteCommand.php:305-326 | `copyConfigurationFiles` leaves the log alone, or appends one "Pull in configuration" commit with a non-empty set of changes |
| ConversionProperties.PantheonYmlStepOutcome | src/Commands/ConvertToComposerSiteCommand.php:335-353 | `copyPantheonYml` succeeds if and only if its checkout and first commit succeed, and also the build-step commit when one is needed; on success the file has `build_step: true` and the log gains "Copy pantheon.yml", then "Add build_step:true" exactly when the flag was not already true |
| ConversionProperties.PantheonYmlStepSucceeds | src/Commands/ConvertToComposerSiteCommand.php:338-352 | after the checkout and the first commit, the file is the default branch's; an already-true flag stops there; otherwise the file is rewritten and committed |
| ConversionProperties.PantheonYmlStepGrows | src/Commands/ConvertToComposerSiteCommand.php:335-353 | `copyPantheonYml` issues only git operations, the `pantheon.yml` checkout first, and commits only with its two messages, in that order |
| ConversionProperties.CustomDirStepVisits | src/Commands/ConvertToComposerSiteCommand.php:374-385 | one directory checks out exactly its webroot-aware path, and issues no move on a webroot site |
| ConversionProperties.CustomStepsVisitInOrder | src/Commands/ConvertToComposerSiteCommand.php:372-396 | the custom-project loop checks out every directory once, in visiting order, even after failures; it issues no move on a webroot site |
| ConversionProperties.CustomDirStepGrows | src/Commands/ConvertToComposerSiteCommand.php:374-390 | one directory issues only git operations and makes only "Copy custom" commits with non-empty changes |
| ConversionProperties.CustomStepsGrow | src/Commands/ConvertToComposerSiteCommand.php:372-396 | the whole loop issues only git operations and makes only "Copy custom" commits with non-empty changes |
| ConversionProperties.CustomStepsWarnings | src/Commands/ConvertToComposerSiteCommand.php:372-396 | the loop logs exactly one warning per directory whose copy failed and none for one that succeeded: as many warnings as failing directories, each failing directory's warning present with its sub-directory, path and failure, and every warning naming a failing directory with its failure |
| ConversionProperties.CustomWarningsCount | src/Commands/ConvertToComposerSiteCommand.php:391-395 | the number of warnings is the number of directories whose copy failed |
| ConversionProperties.CustomWarningsCover | src/Commands/ConvertToComposerSiteCommand.php:391-395 | a directory whose copy failed is logged with its sub-directory, path and failure |
| ConversionProperties.CustomWarningsBlame | src/Commands/ConvertToComposerSiteCommand.php:391-395 | every warning is a custom-copy warning for a directory whose copy failed, with that failure |
| ConversionProperties.SettingsStepMovesOnlyWithoutWebroot | src/Commands/ConvertToComposerSiteCommand.php:407-425 | the settings checkout comes first; without a webroot the forced move to `web/sites/default/settings.php` follows; with a webroot there is no move; at most one "Copy settings.php" commit, only with changes |
| ConversionProperties.SettingsStepGrows | src/Commands/ConvertToComposerSiteCommand.php:407-425 | `copySettingsPhp` issues only git operations and makes only "Copy settings.php" commits |
| ConversionProperties.CustomAndSettingsGrow | src/Commands/ConvertToComposerSiteCommand.php:116-117 | custom projects then settings.php: git operations only, with commits in that order |
| ConversionProperties.PostPushActionsOrder | src/Commands/ConvertToComposerSiteCommand.php:127-138 | the push comes first, then the build trigger; the sync wait happens if and only if run-updb or run-cr is set; each drush command runs if and only if its option is set; `updb -y` runs before `cr` |
| ConversionProperties.PublishingShape | src/Commands/ConvertToComposerSiteCommand.php:119-141 | after the migration: a dry run calls nothing remote and logs "push skipped"; otherwise the push actions run in order; any error names a failing operation |
| ConversionProperties.FinishingShape | src/Commands/ConvertToComposerSiteCommand.php:116-141 | from the custom projects on, commits are custom before settings.php; a dry run stays local; a clean run ends with the migration and the push actions |
| ConversionProperties.CopyingShape | src/Commands/ConvertToComposerSiteCommand.php:105-141 | after the branch: the first operation is the config checkout when the config directory exists, else the `pantheon.yml` checkout; all commits are in step order; a dry run stays local |
| ConversionProperties.ConvertValidatesFirst | src/Commands/ConvertToComposerSiteCommand.php:72-91 | a non-Drupal-8 site, or one with an unsupported upstream, is rejected with that error before any git operation |
| ConversionProperties.ConvertStartsWithBranch | src/Commands/ConvertToComposerSiteCommand.php:104-106 | for a valid site the first operation creates the branch; its failure is exactly the error `Failed(branch)`; otherwise the first copy operation follows it |
| ConversionProperties.ConvertCommitsInStepOrder | src/Commands/ConvertToComposerSiteCommand.php:104-141 | the conversion only appends to the trace and the log; its commits come in step order (configuration, pantheon.yml, build step, custom projects, settings.php); a dry run performs only local operations |
| ConversionProperties.ConvertEnding | src/Commands/ConvertToComposerSiteCommand.php:119-141 | a run without error ends with the migration followed, unless a dry run, by the push actions; "push skipped" is logged if and only if it is a dry run |
| ConversionFailures.RunFailsOn | src/Commands/ConvertToComposerSiteCommand.php:308-316 | a sequence of throwing calls that fails reports one of its own operations that fails, and issues nothing after it |
| ConversionFailures.CopyThenCommitFailsOn | src/Commands/ConvertToComposerSiteCommand.php:308-320 | a copy step fails only on one of its own failing operations, and issues nothing after it |
| ConversionFailures.PantheonYmlStepFailsOn | src/Commands/ConvertToComposerSiteCommand.php:335-353 | `copyPantheonYml` fails only on one of its own failing operations, and issues nothing after it |
| ConversionFailures.SettingsStepFailsOn | src/Commands/ConvertToComposerSiteCommand.php:407-425 | `copySettingsPhp` fails only on one of its own failing operations, and issues nothing after it |
| ConversionFailures.PublishingFailures | src/Commands/ConvertToComposerSiteCommand.php:119-141 | the run after settings.php ends only on a failing migration or push action, nothing is issued after it, and it succeeds if and only if none of those fails |
| ConversionFailures.PublishingMigratesFirst | src/Commands/ConvertToComposerSiteCommand.php:119-127 | after settings.php the migration is issued first |
| ConversionFailures.FinishingFailures | src/Commands/ConvertToComposerSiteCommand.php:116-141 | from the custom projects on, the run ends only on a failing settings.php or publishing operation, with nothing after it; a settings.php failure is the error and ends the run there; the migration is issued if and only if settings.php succeeded |
| ConversionFailures.FinishingWarnings | src/Commands/ConvertToComposerSiteCommand.php:116-141 | the later steps keep the earlier warnings and add no configuration warning |
| ConversionFailures.CopyingConfigWarning | src/Commands/ConvertToComposerSiteCommand.php:305-326 | a configuration failure is one of its own failing operations; it is logged as the first warning, no other configuration warning is logged, and the run goes on to the `pantheon.yml` checkout |
| ConversionFailures.CopyingFailures | src/Commands/ConvertToComposerSiteCommand.php:105-141 | after the branch, the run ends only on a failing `pantheon.yml`, settings.php or publishing operation, with nothing after it; a `pantheon.yml` failure is the error and ends the run there |
| ConversionFailures.ConvertFailurePolicy | src/Commands/ConvertToComposerSiteCommand.php:104-141 | a validated run ends only on a failing required operation (branch, `pantheon.yml`, settings.php, migration, push actions) and issues nothing after it; when no required operation fails, configuration and custom-project failures notwithstanding, it ends without error |
| ConversionFailures.ConvertBranchFailure | src/Commands/ConvertToComposerSiteCommand.php:104 | a failed branch creation is the error, with nothing else issued, committed or logged |
| ConvertToComposerSiteCommand.Command.IsWebRootSite | src/Commands/ConvertToComposerSiteCommand.php:154-164 | `pantheon.yml` is parsed on the first call only, and `web_docroot` defaults to false; later calls return the memoised answer |
| ConvertToComposerSiteCommand.Command.DrupalAbsolutePath | src/Commands/ConvertToComposerSiteCommand.php:174-179 | returns the Drupal root for the memoised layout |
| ConvertToComposerSiteCommand.Command.WebRootAwareRelativePath | src/Commands/ConvertToComposerSiteCommand.php:191-196 | returns the webroot-aware path for the memoised layout |
| ConvertToComposerSiteCommand.Command.CommitIfAnythingToCommit | src/Commands/ConvertToComposerSiteCommand.php:317-318 | the status query, and a commit only when the tree is dirty, as `CommitIfDirty` gives |
| ConvertToComposerSiteCommand.Command.CopyConfigurationFiles | src/Commands/ConvertToComposerSiteCommand.php:305-326 | the working copy becomes `ConfigStep`'s; a failure is logged as a warning and not raised |
| ConvertToComposerSiteCommand.Command.CopyPantheonYml | src/Commands/ConvertToComposerSiteCommand.php:335-353 | the working copy and the failure are `PantheonYmlStep`'s |
| ConvertToComposerSiteCommand.Command.CopyCustomProject | src/Commands/ConvertToComposerSiteCommand.php:375-390 | one directory's checkout, move and commit, as `CustomDirStep` gives; the memo becomes set |
| ConvertToComposerSiteCommand.Command.TryCopyCustomProject | src/Commands/ConvertToComposerSiteCommand.php:374-395 | one directory, with a failure caught and logged as `CustomWarning` gives |
| ConvertToComposerSiteCommand.Command.CopyCustomDir | src/Commands/ConvertToComposerSiteCommand.php:374-395 | the working copy and the warnings grow by one more directory of `CustomSteps` |
| ConvertToComposerSiteCommand.Command.CopyCustomGroup | src/Commands/ConvertToComposerSiteCommand.php:373-396 | the inner loop copies the group's directories in order, continuing after failures |
| ConvertToComposerSiteCommand.Command.CopyCustomProjects | src/Commands/ConvertToComposerSiteCommand.php:363-398 | the working copy and the warnings are what `CustomSteps` gives over every directory in visiting order; the layout memo is kept |
| ConvertToComposerSiteCommand.Command.CopySettingsPhp | src/Commands/ConvertToComposerSiteCommand.php:407-425 | the working copy and the failure are `SettingsStep`'s |
| ConvertToComposerSiteCommand.Command.PushAndDeploy | src/Commands/ConvertToComposerSiteCommand.php:127-138 | issues the post-push actions in order, stopping at the first failure |
| ConvertToComposerSiteCommand.Command.Convert | src/Commands/ConvertToComposerSiteCommand.php:60-145 | the working copy, the warnings and the error are those of `Convert` for the layout the memo fixes |
| ConvertToComposerSiteCommand.Command.CopyingStage | src/Commands/ConvertToComposerSiteCommand.php:105-141 | the steps after the branch, as `Copying` gives |
| ConvertToComposerSiteCommand.Command.FinishingStage | src/Commands/ConvertToComposerSiteCommand.php:116-141 | the steps from the custom projects on, as `Finishing` gives |
| ConvertToComposerSiteCommand.Command.PublishingStage | src/Commands/ConvertToComposerSiteCommand.php:119-141 | the migration and the push, as `Publishing` gives |
| AdviceRules.Contains | src/Commands/AdviseCommand.php:114 | the substring test; `ContainsIff` proves it finds exactly the substrings occurring at some position |
| AdviceRules.KeepPackage | src/Commands/AdviseCommand.php:113-115 | the package filter's test; `ExtraPackagesMembers` proves which keys it keeps |
| AdviceRules.ExtraPackages | src/Commands/AdviseCommand.php:112-116 | the extra-package filter; `ExtraPackagesMembers`, `ExtraPackagesOrder` and `ExtraPackagesIdempotent` prove its members, their order and idempotence |
| AdviceRules.UpgradeNotices | src/Commands/AdviseCommand.php:64-74 | the upgrade notices; `UpgradeNoticesIff` proves when each appears |
| AdviceRules.Drops8Advice | src/Commands/AdviseCommand.php:102-157 | `adviseOnDrops8`; `Drops8AdviceLast` and `Drops8GitFailure` prove its git calls, lines and log |
| AdviceRules.EmptyAdvice | src/Commands/AdviseCommand.php:181-250 | `adviseOnEmpty`; `EmptyDecision` proves it against the four-case `ExpectedEmptyAdvice` table |
| AdviceRules.Advice | src/Commands/AdviseCommand.php:42-93 | `advise`; `RecommendedNeedsNoConversion`, `OneAdvisor` and `OtherUpstreamsGetNoAdvice` prove the dispatch |
| AdviceRules.ContainsIff | src/Commands/AdviseCommand.php:114 | the left-to-right scan finds a substring if and only if it occurs at some position |
| AdviceRules.ExtraPackagesMembers | src/Commands/AdviseCommand.php:112-116 | a key is listed if and only if it is a `require` key that is not `composer/installers` and does not contain `drupal/core-` |
| AdviceRules.ExtraPackagesAppend | src/Commands/AdviseCommand.php:112-116 | the filter distributes over concatenation: it keeps the keys in file order |
| AdviceRules.ExtraPackagesOrder | src/Commands/AdviseCommand.php:112-116 | of two kept keys, the one earlier in `require` is listed earlier, at the position after the kept keys before it |
| AdviceRules.ExtraPackagesIdempotent | src/Commands/AdviseCommand.php:112-116 | filtering the filtered list changes nothing |
| AdviceRules.RecommendedNeedsNoConversion | src/Commands/AdviseCommand.php:59-62 | for drupal-recommended the output is the upstream line and "No conversion is necessary." only; no upgrade check and no git operation |
| AdviceRules.UpgradeNoticesIff | src/Commands/AdviseCommand.php:64-74 | the updates notice appears if and only if the checks run and there are upstream or Composer updates; the PHP notice appears if and only if the checks run and PHP is below 7.4 |
| AdviceRules.OneAdvisor | src/Commands/AdviseCommand.php:76-92 | at most one advisor runs, the one of the site's upstream: every other line is the upstream line or a notice |
| AdviceRules.AdvisorWritesOwnLines | src/Commands/AdviseCommand.php:76-92 | each advisor writes only its own lines |
| AdviceRules.OtherUpstreamsGetNoAdvice | src/Commands/AdviseCommand.php:76-93 | any other upstream gets the upstream line and the notices only, with the working copy untouched |
| AdviceRules.GitOnlyForDrops8AndEmpty | src/Commands/AdviseCommand.php:76-92 | only the drupal8 and empty advisors touch the working copy |
| AdviceRules.Drops8AdviceLast | src/Commands/AdviseCommand.php:102-157 | for drupal8 the drops-8 remote is added and then fetched; the composer notice appears if and only if there are extra packages, "Standard drupal 8 site." otherwise; the packages are logged exactly then; the conversion advice comes last |
| AdviceRules.Drops8AnalysisFailure | src/Commands/AdviseCommand.php:109-141 | when the composer.json analysis fails, the failure is logged, the site is reported as standard, and the conversion advice still comes last |
| AdviceRules.Drops8ListsExtraPackages | src/Commands/AdviseCommand.php:112-138 | the logged package list is the filter's non-empty result, and a key is in it if and only if it is required and kept |
| AdviceRules.Drops8GitFailure | src/Commands/AdviseCommand.php:104-107 | when adding or fetching the drops-8 remote fails, the command stops with that failure before any advice |
| AdviceRules.EmptyDecision | src/Commands/AdviseCommand.php:181-250 | for empty: the Build Tools notice for Build Tools sites, then exactly one advice, the one `ExpectedEmptyAdvice`'s four-case table gives; the drupal-recommended remote is added only when the upstream-configuration composer.json exists, the site is not Build Tools and the file lacks `drupal/core-recommended`, and only its failure stops the advice |
| AdviceRules.EmptyBuildToolsNotice | src/Commands/AdviseCommand.php:185-188 | the Build Tools notice is written if and only if the site is a Build Tools site |
| AdviseCommand.Command.Advise | src/Commands/AdviseCommand.php:42-93 | the output lines, log lines, working copy and failure are those of `Advice` |
| AdviseCommand.Command.AdviseOnDrops8 | src/Commands/AdviseCommand.php:102-157 | as `Drops8Advice` gives |
| AdviseCommand.Command.AdviseOnDrupalProject | src/Commands/AdviseCommand.php:162-172 | writes the drupal-project notice and advice |
| AdviseCommand.Command.AdviseOnEmpty | src/Commands/AdviseCommand.php:181-250 | as `EmptyAdvice` gives |

## Left out

- The `Git` utility is not part of this model. A fake replaces it:
  - An operation fails exactly when it is listed in `Fakes.failing`, and then it fails every time it is issued.
  - Whether a checkout, move or remove changes the tree is given by `Fakes.changing`.
  - A commit on a clean tree succeeds.
  - Path globbing (`<dir>/*`) is not expanded.
- The Terminus site and environment API (framework, upstream, upstream status, PHP version) is not modelled. These become inputs: `Site`, `SiteFacts` and `Options`.
- The site name, the upstream label and the Terminus executable name in messages are not modelled.
- `DrupalProjects`, `getContribDrupalProjects`, `getLibraries`, `getComposerJson` and `migrateComposerJson` are not part of this model.
  - Contrib and library detection are left out.
  - The custom module and theme directories are scan inputs.
  - The migration is one opaque remote action that can fail.
- The conversion trait helpers are not part of this model:
  - `createLocalGitBranchFromRemote` is one git operation that replaces `pantheon.yml` with the upstream's.
  - `getSupportedSourceUpstreamIds`, `isBuildToolsSite` and `areGitReposWithCommonCommits` are inputs. Any git commands the last one issues are not recorded.
  - `pushTargetBranch`, `addCommitToTriggerBuild`, `waitForSyncCodeWorkflow` and `runDrushCommand` are opaque remote actions.
  - `getLocalSitePath` and cloning the site are left out; the local path is an input.
- YAML and JSON parsing are not modelled.
  - `pantheon.yml` is reduced to its `web_docroot` and `build_step` keys. A non-boolean `web_docroot`, which PHP would coerce, is not represented.
  - composer.json is reduced to its `require` keys in file order, or to `None` when reading or decoding it throws.
  - Integer-like keys, which PHP turns into integers, are not distinguished.
- A failure to parse `pantheon.yml` inside `isWebRootSite` is not modelled.
- `Composer\Semver\Comparator::lessThan($phpVersion, '7.4')` is the boolean input `phpBelow74`.
- Filesystem effects are left out:
  - the `is_dir` test on `sites/default/config`, which is a scan input;
  - the `mkdir` of the custom target directory;
  - the `fopen`/`fwrite` of `pantheon.yml`, which is modelled as a direct write recorded as a pending change.
- Log lines are kept only where they carry behaviour:
  - the warnings for a failed configuration copy, for a failed custom-project directory, and for a skipped push;
  - in `conversion:advise`, the composer.json analysis error and the package list.
  Notices and their wording are left out. The output and the log are separate sequences, so their interleaving is not represented.
- `convert` and the body of `copyCustomProjects` are each one method in PHP. Here they are split into several methods:
  - `Convert`, `CopyingStage`, `FinishingStage` and `PublishingStage`;
  - `CopyCustomProjects`, `CopyCustomGroup`, `CopyCustomDir`, `TryCopyCustomProject` and `CopyCustomProject`.
  The ghost parameters of these methods only carry the proof.
- Exceptions thrown by code outside git, such as the `mkdir` of the custom target directory inside the custom-project loop, are not modelled. Only git operations and the remote actions can fail.
